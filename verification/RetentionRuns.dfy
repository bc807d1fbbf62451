/**
 * Retention deletion over runs that are not calm: when a deletion leaves documents
 * behind, and when it deletes a thread that is in use again.
 */
module RetentionRuns {
  import opened Wrappers
  import opened MatchingSchema
  import opened Lifecycle
  import opened Retention

  /** The state after the first n actions. */
  function At(actions: seq<Action>, n: nat): System
    requires n <= |actions|
  {
    RunActions(actions[..n])
  }

  lemma AtNext(actions: seq<Action>, n: nat)
    requires n < |actions|
    ensures At(actions, n + 1) == Step(At(actions, n), actions[n])
  {
    assert actions[..n + 1][..n] == actions[..n];
  }

  lemma AtPrefix(actions: seq<Action>, m: nat, n: nat)
    requires n <= m <= |actions|
    ensures At(actions[..m], n) == At(actions, n)
  {
    assert actions[..m][..n] == actions[..n];
  }

  // ---- remote documents ----

  predicate WorksOn(action: Action, app: AppId) {
    action.Work? && action.app == app
  }

  predicate DeletesRemote(s: System, action: Action, app: AppId) {
    action.Proceed? && PhaseOf(s, action.cleaner).Requested? && PhaseOf(s, action.cleaner).app == app
  }

  predicate DeletesRemoteAt(actions: seq<Action>, k: nat, app: AppId)
    requires k < |actions|
  {
    DeletesRemote(At(actions, k), actions[k], app)
  }

  predicate WorksAt(actions: seq<Action>, k: nat, app: AppId)
    requires k < |actions|
  {
    WorksOn(actions[k], app)
  }

  /** Some cleaner deletes the remote documents of app among the actions from k to n. */
  predicate DeletedBetween(actions: seq<Action>, k: nat, n: nat, app: AppId)
    requires n <= |actions|
  {
    exists m :: k <= m < n && DeletesRemoteAt(actions, m, app)
  }

  /** Work among the actions from b to n creates documents nobody deletes before n. */
  predicate LeftByWork(actions: seq<Action>, b: nat, n: nat, app: AppId)
    requires n <= |actions|
  {
    exists k :: b <= k < n && WorksAt(actions, k, app) && !DeletedBetween(actions, k + 1, n, app)
  }

  lemma RemoteStep(s: System, action: Action, app: AppId)
    ensures app in Step(s, action).data.remote
       <==> WorksOn(action, app) || (app in s.data.remote && !DeletesRemote(s, action, app))
  {
  }

  /** Documents present at n are those present at b and not deleted since, or those of later work not deleted since. */
  lemma {:induction false} RemoteSince(actions: seq<Action>, b: nat, n: nat, app: AppId)
    requires b <= n <= |actions|
    ensures app in At(actions, n).data.remote <==>
              (app in At(actions, b).data.remote && !DeletedBetween(actions, b, n, app))
                || LeftByWork(actions, b, n, app)
    decreases n - b
  {
    if b < n {
      RemoteSince(actions, b + 1, n, app);
      AtNext(actions, b);
      RemoteStep(At(actions, b), actions[b], app);
      FirstAction(actions, b, n, app);
    }
  }

  lemma FirstAction(actions: seq<Action>, b: nat, n: nat, app: AppId)
    requires b < n <= |actions|
    ensures DeletedBetween(actions, b, n, app)
        <==> DeletesRemoteAt(actions, b, app) || DeletedBetween(actions, b + 1, n, app)
    ensures LeftByWork(actions, b, n, app)
       <==> (WorksAt(actions, b, app) && !DeletedBetween(actions, b + 1, n, app)) || LeftByWork(actions, b + 1, n, app)
  {
  }

  /** The cleaner has just deleted the remote documents, or found that it need not. */
  predicate Settles(p: Phase) {
    p.RemoteDeleted? || p.FoundCompleted?
  }

  predicate PastRemote(p: Phase) {
    p.RemoteDeleted? || p.FilesDeleted? || p.FoundCompleted? || p.CleanedUp? || p.CheckpointDeleted?
  }

  /** How many actions had happened when the cleaner last settled the remote documents of the application it is at. */
  function SettledAt(actions: seq<Action>, c: CleanerId): nat {
    if actions == [] then 0
    else if actions[|actions| - 1] == Proceed(c) && Settles(PhaseOf(RunActions(actions), c)) then |actions|
    else SettledAt(actions[..|actions| - 1], c)
  }

  /** A cleaner's phase changes only by its own actions. */
  lemma OtherActionsKeepPhase(s: System, action: Action, c: CleanerId)
    requires action.Work? || action.cleaner != c
    ensures PhaseOf(Step(s, action), c) == PhaseOf(s, c)
  {
  }

  lemma OwnActionMoves(s: System, action: Action, c: CleanerId)
    requires PastRemote(PhaseOf(Step(s, action), c)) && !(action == Proceed(c) && Settles(PhaseOf(Step(s, action), c)))
    ensures PastRemote(PhaseOf(s, c)) && PhaseOf(s, c).app == PhaseOf(Step(s, action), c).app
  {
    if action.Work? || action.cleaner != c {
      OtherActionsKeepPhase(s, action, c);
    }
  }

  /** A cleaner past the remote documents settled them by a step of its own. */
  lemma {:induction false} SettledBefore(actions: seq<Action>, c: CleanerId)
    requires PastRemote(PhaseOf(RunActions(actions), c))
    ensures var b := SettledAt(actions, c);
            && 0 < b <= |actions| && actions[b - 1] == Proceed(c)
            && Settles(PhaseOf(At(actions, b), c))
            && PhaseOf(At(actions, b), c).app == PhaseOf(RunActions(actions), c).app
  {
    assert actions != [];
    var n := |actions| - 1;
    var s := RunActions(actions[..n]);
    assert At(actions, |actions|) == RunActions(actions) by {
      assert actions[..|actions|] == actions;
    }
    if !(actions[n] == Proceed(c) && Settles(PhaseOf(RunActions(actions), c))) {
      OwnActionMoves(s, actions[n], c);
      SettledBefore(actions[..n], c);
      var b := SettledAt(actions, c);
      AtPrefix(actions, n, b);
    }
  }

  /** A step that settles found the request completed, or deletes the remote documents itself. */
  lemma SettlingStep(s: System, c: CleanerId)
    requires Settles(PhaseOf(Step(s, Proceed(c)), c))
    ensures var p := PhaseOf(Step(s, Proceed(c)), c);
            if p.FoundCompleted? then IsCompleted(s.data, p.app) && Step(s, Proceed(c)).data.remote == s.data.remote
            else p.app !in Step(s, Proceed(c)).data.remote
  {
  }

  /** The documents a deletion leaves behind, told from what happened. */
  ghost predicate LeavesRemote(actions: seq<Action>, b: nat, c: CleanerId, app: AppId)
    requires 0 < b <= |actions|
  {
    || (&& PhaseOf(At(actions, b), c).FoundCompleted? && app in At(actions, b - 1).data.remote
        && !DeletedBetween(actions, b, |actions|, app))
    || LeftByWork(actions, b, |actions|, app)
  }

  /**
   * Over every run: when a cleaner deletes the row of an application, remote documents
   * stay behind exactly when the cleaner found the request completed although there were
   * documents, or the application was worked on after the cleaner had dealt with them,
   * and in either case no other cleaner has deleted them since.
   */
  lemma DeletionLeavesRemoteExactly(actions: seq<Action>, c: CleanerId, app: AppId)
    requires var p := PhaseOf(RunActions(actions), c); p.CheckpointDeleted? && p.app == app
    ensures app !in Step(RunActions(actions), Proceed(c)).data.rows
    ensures var b := SettledAt(actions, c);
            && 0 < b <= |actions| && actions[b - 1] == Proceed(c)
            && (PhaseOf(At(actions, b), c).FoundCompleted? ==> IsCompleted(At(actions, b - 1).data, app))
            && (app in Step(RunActions(actions), Proceed(c)).data.remote <==> LeavesRemote(actions, b, c, app))
  {
    SettledBefore(actions, c);
    var b := SettledAt(actions, c);
    AtNext(actions, b - 1);
    SettlingStep(At(actions, b - 1), c);
    RemoteSince(actions, b, |actions|, app);
    assert actions[..|actions|] == actions;
  }

  /** With no other cleaner at the application, the last two conditions fall away. */
  lemma AloneLeavesNothingExactly(actions: seq<Action>, c: CleanerId, app: AppId)
    requires var p := PhaseOf(RunActions(actions), c); p.CheckpointDeleted? && p.app == app
    requires !DeletedBetween(actions, SettledAt(actions, c), |actions|, app)
    ensures var b := SettledAt(actions, c);
            && 0 < b <= |actions|
            && (app !in Step(RunActions(actions), Proceed(c)).data.remote <==>
                  && (PhaseOf(At(actions, b), c).FoundCompleted? ==> app !in At(actions, b - 1).data.remote)
                  && forall k :: b <= k < |actions| ==> !WorksAt(actions, k, app))
  {
    DeletionLeavesRemoteExactly(actions, c, app);
    var b := SettledAt(actions, c);
    forall k | b <= k < |actions| && WorksAt(actions, k, app)
      ensures LeftByWork(actions, b, |actions|, app)
    {
      assert !DeletedBetween(actions, k + 1, |actions|, app);
    }
  }

  // ---- threads in use again ----

  /** The row last written by work on the application since the first b actions. */
  function LastWork(actions: seq<Action>, b: nat, app: AppId): Option<LifecycleRow> {
    if |actions| <= b then None
    else if WorksOn(actions[|actions| - 1], app) then Some(actions[|actions| - 1].row)
    else LastWork(actions[..|actions| - 1], b, app)
  }

  /** How many actions had happened when the cleaner last listed the expired rows. */
  function ListedAt(actions: seq<Action>, c: CleanerId): nat {
    if actions == [] then 0
    else
      var s, last := RunActions(actions[..|actions| - 1]), actions[|actions| - 1];
      if last.Begin? && last.cleaner == c && PhaseOf(s, c).Idle?
        && ListsExpired(s.data, last.now, last.list) then |actions|
      else ListedAt(actions[..|actions| - 1], c)
  }

  lemma RowStep(s: System, action: Action, app: AppId)
    requires app in Step(s, action).data.rows
    ensures if WorksOn(action, app) then Step(s, action).data.rows[app] == action.row
            else app in s.data.rows && Step(s, action).data.rows[app] == s.data.rows[app]
  {
  }

  /** A row is the one last written since b, or still the one there was. */
  lemma {:induction false} RowSince(actions: seq<Action>, b: nat, app: AppId)
    requires b <= |actions| && app in RunActions(actions).data.rows
    ensures var last := LastWork(actions, b, app);
            if last.Some? then RunActions(actions).data.rows[app] == last.value
            else app in At(actions, b).data.rows && RunActions(actions).data.rows[app] == At(actions, b).data.rows[app]
    decreases |actions|
  {
    if |actions| == b {
      assert actions[..b] == actions;
    } else {
      var n := |actions| - 1;
      var s := RunActions(actions[..n]);
      RowStep(s, actions[n], app);
      if !WorksOn(actions[n], app) {
        RowSince(actions[..n], b, app);
        AtPrefix(actions, n, b);
      }
    }
  }

  predicate Covers(p: Phase, since: Timestamp, app: AppId) {
    !p.Idle? && p.since == since && Listed(p, app)
  }

  lemma CoverageStep(s: System, action: Action, c: CleanerId, since: Timestamp, app: AppId)
    requires Covers(PhaseOf(Step(s, action), c), since, app)
    requires !(action.Begin? && action.cleaner == c && PhaseOf(s, c).Idle?
        && ListsExpired(s.data, action.now, action.list))
    ensures Covers(PhaseOf(s, c), since, app)
  {
    if action.Work? || action.cleaner != c {
      OtherActionsKeepPhase(s, action, c);
    }
  }

  /** What a cleaner is at or still has before it was due when the cleaner listed it. */
  lemma {:induction false} ListedWasDue(actions: seq<Action>, c: CleanerId, since: Timestamp, app: AppId)
    requires Covers(PhaseOf(RunActions(actions), c), since, app)
    ensures ListedAt(actions, c) <= |actions| && IsDue(At(actions, ListedAt(actions, c)).data, app, since)
  {
    assert actions != [];
    var n := |actions| - 1;
    var s, last := RunActions(actions[..n]), actions[n];
    if last.Begin? && last.cleaner == c && PhaseOf(s, c).Idle? && ListsExpired(s.data, last.now, last.list) {
      assert actions[..|actions|] == actions;
    } else {
      CoverageStep(s, last, c, since, app);
      ListedWasDue(actions[..n], c, since, app);
      AtPrefix(actions, n, ListedAt(actions, c));
    }
  }

  /**
   * Over every run: the row a cleaner deletes is still that of an expired thread exactly
   * when the thread was not worked on since the listing, or its last work left an expired
   * row again. The deletion itself does not look.
   */
  lemma DeletedRowIsExpiredExactly(actions: seq<Action>, c: CleanerId, app: AppId)
    requires var p := PhaseOf(RunActions(actions), c); p.CheckpointDeleted? && p.app == app
    requires app in RunActions(actions).data.rows
    ensures app !in Step(RunActions(actions), Proceed(c)).data.rows
    ensures var since, last := PhaseOf(RunActions(actions), c).since, LastWork(actions, ListedAt(actions, c), app);
            IsExpired(RunActions(actions).data.rows[app], since) <==> (last.Some? ==> IsExpired(last.value, since))
  {
    ListedWasDue(actions, c, PhaseOf(RunActions(actions), c).since, app);
    RowSince(actions, ListedAt(actions, c), app);
  }

  // ---- runs that do so ----

  function Onwards(s: System, actions: seq<Action>): System
    decreases |actions|
  {
    if actions == [] then s else Onwards(Step(s, actions[0]), actions[1..])
  }

  lemma {:induction false} RunOnwards(before: seq<Action>, actions: seq<Action>)
    ensures Onwards(RunActions(before), actions) == RunActions(before + actions)
    decreases |actions|
  {
    if actions == [] {
      assert before + actions == before;
    } else {
      assert (before + [actions[0]])[..|before|] == before;
      assert before + actions == (before + [actions[0]]) + actions[1..];
      RunOnwards(before + [actions[0]], actions[1..]);
    }
  }

  lemma {:induction false} OnwardsTwice(s: System, a: seq<Action>, b: seq<Action>)
    ensures Onwards(s, a + b) == Onwards(Onwards(s, a), b)
    decreases |a|
  {
    if a == [] {
      assert a + b == b;
    } else {
      assert (a + b)[0] == a[0] && (a + b)[1..] == a[1..] + b;
      OnwardsTwice(Step(s, a[0]), a[1..], b);
    }
  }

  /** n steps of one cleaner. */
  function Proceeds(c: CleanerId, n: nat): (actions: seq<Action>)
    ensures |actions| == n
  {
    if n == 0 then [] else [Proceed(c)] + Proceeds(c, n - 1)
  }

  lemma ProceedsOnwards(s: System, c: CleanerId, n: nat)
    requires n > 0
    ensures Onwards(s, Proceeds(c, n)) == Onwards(Advance(s, c), Proceeds(c, n - 1))
  {
    assert Proceeds(c, n)[1..] == Proceeds(c, n - 1);
  }

  /** Three steps of a cleaner. */
  lemma ThreeSteps(s: System, c: CleanerId, n: nat)
    requires n >= 3
    ensures Onwards(s, Proceeds(c, n)) == Onwards(Advance(Advance(Advance(s, c), c), c), Proceeds(c, n - 3))
  {
    ProceedsOnwards(s, c, n);
    ProceedsOnwards(Advance(s, c), c, n - 1);
    ProceedsOnwards(Advance(Advance(s, c), c), c, n - 2);
  }

  /** From the request to the written tombstone. */
  lemma CleansUp(s: System, c: CleanerId, since: Timestamp, app: AppId, n: nat)
    requires PhaseOf(s, c) == Next(since, [app]) && !IsCompleted(s.data, app) && n >= 4
    ensures var d := s.data.(remote := s.data.remote - {app}, files := s.data.files - {app},
                             outbox := s.data.outbox[app := DeletionStatus.Completed],
                               tombstones := s.data.tombstones + {app});
            Onwards(s, Proceeds(c, n)) == Onwards(Move(s.(data := d), c, CleanedUp(since, app, [])), Proceeds(c, n - 4))
  {
    ThreeSteps(s, c, n);
    var s3 := Advance(Advance(Advance(s, c), c), c);
    assert PhaseOf(s3, c) == FilesDeleted(since, app, []);
    ProceedsOnwards(s3, c, n - 3);
    assert Advance(s3, c).data.outbox == s.data.outbox[app := DeletionStatus.Completed];
    assert Advance(s3, c).cleaners == s.cleaners[c := CleanedUp(since, app, [])];
  }

  lemma SkipsRemote(s: System, c: CleanerId, since: Timestamp, app: AppId, n: nat)
    requires PhaseOf(s, c) == Next(since, [app]) && IsCompleted(s.data, app) && n >= 2
    ensures var d := s.data.(files := s.data.files - {app});
            Onwards(s, Proceeds(c, n)) == Onwards(Move(s.(data := d), c, CleanedUp(since, app, [])), Proceeds(c, n - 2))
  {
    ProceedsOnwards(s, c, n);
    ProceedsOnwards(Advance(s, c), c, n - 1);
    assert [app][1..] == [];
    assert PhaseOf(Advance(s, c), c) == FoundCompleted(since, app, []);
    assert Advance(Advance(s, c), c).cleaners == s.cleaners[c := CleanedUp(since, app, [])];
  }

  /** From the tombstone to the deleted row and the end of the list. */
  lemma Forgets(s: System, c: CleanerId, since: Timestamp, app: AppId)
    requires PhaseOf(s, c) == CleanedUp(since, app, [])
    ensures Onwards(s, Proceeds(c, 3)) == Move(s.(data := Forget(s.data, app)), c, Idle)
  {
    ThreeSteps(s, c, 3);
    assert Advance(Advance(Advance(s, c), c), c).cleaners == s.cleaners[c := Idle];
  }

  /** A cleaner that lists just this application. */
  function Run(c: CleanerId, now: Timestamp, app: AppId, steps: nat): seq<Action> {
    [Begin(c, now, [app])] + Proceeds(c, steps)
  }

  lemma RunBegins(s: System, c: CleanerId, now: Timestamp, app: AppId, steps: nat)
    requires PhaseOf(s, c).Idle? && ListsExpired(s.data, now, [app])
    ensures Onwards(s, Run(c, now, app, steps)) == Onwards(Move(s, c, Next(now, [app])), Proceeds(c, steps))
  {
    assert Run(c, now, app, steps)[1..] == Proceeds(c, steps);
  }

  /** One application, in one data set, with no cleaner under way. */
  function Alone(app: AppId, row: LifecycleRow, outbox: map<AppId, DeletionStatus>, tombstones: set<AppId>): Data {
    Data(map[app := row], {app}, {app}, {app}, outbox, tombstones)
  }

  lemma FirstWork(app: AppId, row: LifecycleRow)
    ensures RunActions([Work(app, row)]) == System(Alone(app, row, map[], {}), map[])
  {
    assert [Work(app, row)][..0] == [];
  }

  /** What a complete first deletion leaves: a completed request and a tombstone. */
  function Gone(app: AppId, remote: set<AppId>): Data {
    Data(map[], {}, {}, remote, map[app := DeletionStatus.Completed], {app})
  }

  lemma FirstCleanup(app: AppId, row: LifecycleRow, now: Timestamp, n: nat)
    requires n >= 4
    ensures Onwards(System(Alone(app, row, map[], {}), map[0 := Next(now, [app])]), Proceeds(0, n))
         == Onwards(System(Gone(app, {}).(rows := map[app := row], checkpoints := {app}),
            map[0 := CleanedUp(now, app, [])]), Proceeds(0, n - 4))
  {
    var s := System(Alone(app, row, map[], {}), map[0 := Next(now, [app])]);
    CleansUp(s, 0, now, app, n);
    var none: map<AppId, DeletionStatus> := map[];
    assert none[app := DeletionStatus.Completed] == map[app := DeletionStatus.Completed] && {app} - {app} == {}
      && {} + {app} == {app};
    assert map[0 := Next(now, [app])][0 := CleanedUp(now, app, [])] == map[0 := CleanedUp(now, app, [])];
  }

  lemma FirstForgetting(app: AppId, row: LifecycleRow, now: Timestamp)
    ensures Onwards(System(Gone(app, {}).(rows := map[app := row], checkpoints := {app}),
        map[0 := CleanedUp(now, app, [])]), Proceeds(0, 3))
         == System(Gone(app, {}), map[0 := Idle])
  {
    Forgets(System(Gone(app, {}).(rows := map[app := row], checkpoints := {app}), map[0 := CleanedUp(now, app, [])]),
      0, now, app);
  }

  lemma FirstListing(app: AppId, row: LifecycleRow, now: Timestamp, n: nat)
    requires IsExpired(row, now)
    ensures Onwards(System(Alone(app, row, map[], {}), map[]), Run(0, now, app, n))
         == Onwards(System(Alone(app, row, map[], {}), map[0 := Next(now, [app])]), Proceeds(0, n))
  {
    RunBegins(System(Alone(app, row, map[], {}), map[]), 0, now, app, n);
  }

  lemma FirstDeletion(app: AppId, row: LifecycleRow, now: Timestamp)
    requires IsExpired(row, now)
    ensures RunActions([Work(app, row)] + Run(0, now, app, 7)) == System(Gone(app, {}), map[0 := Idle])
  {
    FirstWork(app, row);
    FirstListing(app, row, now, 7);
    FirstCleanup(app, row, now, 7);
    FirstForgetting(app, row, now);
    RunOnwards([Work(app, row)], Run(0, now, app, 7));
  }

  /** A first life with its deletion, and a second life with its deletion. */
  function TwoLives(app: AppId, row: LifecycleRow, now: Timestamp): seq<Action> {
    [Work(app, row)] + Run(0, now, app, 7) + ([Work(app, row)] + Run(0, now, app, 5))
  }

  lemma SecondCleanup(app: AppId, row: LifecycleRow, now: Timestamp)
    ensures Onwards(System(Alone(app, row, map[app := DeletionStatus.Completed], {app}), map[0 := Next(now, [app])]),
        Proceeds(0, 5))
         == Onwards(System(Gone(app, {app}).(rows := map[app := row], checkpoints := {app}),
            map[0 := CleanedUp(now, app, [])]), Proceeds(0, 3))
  {
    var s := System(Alone(app, row, map[app := DeletionStatus.Completed], {app}), map[0 := Next(now, [app])]);
    SkipsRemote(s, 0, now, app, 5);
    assert map[0 := Next(now, [app])][0 := CleanedUp(now, app, [])] == map[0 := CleanedUp(now, app, [])];
  }

  lemma SecondForgetting(app: AppId, row: LifecycleRow, now: Timestamp)
    ensures Onwards(System(Gone(app, {app}).(rows := map[app := row], checkpoints := {app}),
        map[0 := CleanedUp(now, app, [])]), Proceeds(0, 3))
         == System(Gone(app, {app}), map[0 := Idle])
  {
    Forgets(
      System(Gone(app, {app}).(rows := map[app := row], checkpoints := {app}), map[0 := CleanedUp(now, app, [])]), 0,
      now, app);
  }

  lemma SecondLife(app: AppId, row: LifecycleRow, now: Timestamp)
    requires IsExpired(row, now)
    ensures Onwards(System(Gone(app, {}), map[0 := Idle]), [Work(app, row)] + Run(0, now, app, 5))
        == System(Gone(app, {app}), map[0 := Idle])
  {
    var s := System(Alone(app, row, map[app := DeletionStatus.Completed], {app}), map[0 := Idle]);
    assert Step(System(Gone(app, {}), map[0 := Idle]), Work(app, row)) == s;
    assert ([Work(app, row)] + Run(0, now, app, 5))[1..] == Run(0, now, app, 5);
    RunBegins(s, 0, now, app, 5);
    assert map[0 := Idle][0 := Next(now, [app])] == map[0 := Next(now, [app])];
    SecondCleanup(app, row, now);
    SecondForgetting(app, row, now);
  }

  /**
   * A run that leaves documents behind: the application identifier is used again after
   * its deletion, and the second deletion finds the request completed.
   */
  lemma SecondLifeKeepsRemoteDocuments(app: AppId, row: LifecycleRow, now: Timestamp)
    requires IsExpired(row, now)
    ensures var s := RunActions(TwoLives(app, row, now));
            app !in s.data.rows && app in s.data.remote && app in s.data.tombstones && s.cleaners == map[0 := Idle]
  {
    FirstDeletion(app, row, now);
    SecondLife(app, row, now);
    RunOnwards([Work(app, row)] + Run(0, now, app, 7), [Work(app, row)] + Run(0, now, app, 5));
  }

  /** The thread is used again just before its row is deleted. */
  function RestartedLate(app: AppId, row: LifecycleRow, busy: LifecycleRow, now: Timestamp): seq<Action> {
    [Work(app, row)] + Run(0, now, app, 5) + [Work(app, busy)]
  }

  lemma AlmostDeleted(app: AppId, row: LifecycleRow, now: Timestamp)
    requires IsExpired(row, now)
    ensures RunActions([Work(app, row)] + Run(0, now, app, 5))
         == System(Gone(app, {}).(rows := map[app := row]), map[0 := CheckpointDeleted(now, app, [])])
  {
    FirstWork(app, row);
    FirstListing(app, row, now, 5);
    FirstCleanup(app, row, now, 5);
    ProceedsOnwards(
      System(Gone(app, {}).(rows := map[app := row], checkpoints := {app}), map[0 := CleanedUp(now, app, [])]), 0, 1);
    RunOnwards([Work(app, row)], Run(0, now, app, 5));
  }

  lemma RunSnoc(actions: seq<Action>, action: Action)
    ensures RunActions(actions + [action]) == Step(RunActions(actions), action)
  {
    assert (actions + [action])[..|actions|] == actions;
  }

  /** A run that deletes the row of a thread in use, and leaves its new documents behind. */
  lemma RestartedThreadIsStillDeleted(app: AppId, row: LifecycleRow, busy: LifecycleRow, now: Timestamp)
    requires IsExpired(row, now) && !IsExpired(busy, now)
    ensures RunActions(RestartedLate(app, row, busy, now)).data.rows == map[app := busy]
    ensures var s := RunActions(RestartedLate(app, row, busy, now) + [Proceed(0)]);
            app !in s.data.rows && app in s.data.remote
  {
    AlmostDeleted(app, row, now);
    RunSnoc([Work(app, row)] + Run(0, now, app, 5), Work(app, busy));
    RunSnoc(RestartedLate(app, row, busy, now), Proceed(0));
  }
}
