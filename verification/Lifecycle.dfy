/** Lifecycle rows: the status of each memory thread and when a terminal thread may be deleted. */
module Lifecycle {
  import opened Wrappers
  import opened MatchingSchema
  import opened WorkflowSchema
  import opened AgentSchema

  datatype LifecycleRow = LifecycleRow(
    status: GraphStatus,
    current: WorkerName,
    lastError: Option<WorkerError>,
    stale: bool,
    updatedAt: Timestamp,
    terminalAt: Option<Timestamp>,
    deleteAfter: Option<Timestamp>)

  /** terminal_retention_consistent: deletion is dated exactly on terminal rows, one retention period after. */
  predicate RetentionConsistent(row: LifecycleRow, retention: nat) {
    && (row.status.Terminal() <==> row.terminalAt.Some?)
    && row.deleteAfter == (if row.terminalAt.Some? then Some(row.terminalAt.value + retention) else None)
  }

  function NewRow(current: WorkerName, now: Timestamp): LifecycleRow {
    LifecycleRow(Running, current, None, false, now, None, None)
  }

  function WithStatus(
    row: LifecycleRow, status: GraphStatus, current: WorkerName, lastError: Option<WorkerError>, now: Timestamp,
    retention: nat): LifecycleRow
  {
    row.(status := status, current := current, lastError := lastError, stale := false, updatedAt := now,
         terminalAt := if status.Terminal() then Some(now) else None,
         deleteAfter := if status.Terminal() then Some(now + retention) else None)
  }

  predicate IsExpired(row: LifecycleRow, now: Timestamp) {
    row.status.Terminal() && row.deleteAfter.Some? && row.deleteAfter.value <= now
  }

  predicate IsStale(row: LifecycleRow, before: Timestamp) {
    !row.status.Terminal() && row.updatedAt < before
  }

  class InMemoryLifecycleStore {
    const retention: nat
    var records: map<AppId, LifecycleRow>

    ghost predicate Valid()
      reads this
    {
      forall app :: app in records ==> RetentionConsistent(records[app], retention)
    }

    constructor (retention: nat)
      ensures Valid() && records == map[] && this.retention == retention
    {
      this.retention := retention;
      records := map[];
    }

    method Create(app: AppId, current: WorkerName, now: Timestamp) returns (row: LifecycleRow)
      requires Valid()
      modifies this
      ensures Valid()
      ensures row == if app in old(records) then old(records)[app] else NewRow(current, now)
      ensures records == old(records)[app := row]
    {
      if app in records {
        row := records[app];
        assert records == records[app := row];
        return;
      }
      row := NewRow(current, now);
      records := records[app := row];
    }

    /** None stands for the KeyError of an unknown thread. */
    method SetStatus(
      app: AppId, status: GraphStatus, current: WorkerName, lastError: Option<WorkerError>, now: Timestamp)
      returns (row: Option<LifecycleRow>)
      requires Valid()
      modifies this
      ensures Valid()
      ensures app !in old(records) ==> row == None && records == old(records)
      ensures app in old(records) ==>
                && row == Some(WithStatus(old(records)[app], status, current, lastError, now, retention))
                && records == old(records)[app := row.value]
    {
      if app !in records {
        return None;
      }
      var updated := WithStatus(records[app], status, current, lastError, now, retention);
      records := records[app := updated];
      return Some(updated);
    }

    /** Flags every overdue non-terminal row, and only those; nothing else in any row changes. */
    method FlagStale(before: Timestamp) returns (flagged: set<AppId>)
      requires Valid()
      modifies this
      ensures Valid()
      ensures flagged == set app | app in old(records) && IsStale(old(records)[app], before)
      ensures records == map app | app in old(records) ::
                           if app in flagged then old(records)[app].(stale := true) else old(records)[app]
    {
      var todo := records.Keys;
      flagged := {};
      while todo != {}
        invariant todo <= old(records).Keys && records.Keys == old(records).Keys
        invariant flagged == set app | app in old(records) && app !in todo && IsStale(old(records)[app], before)
        invariant forall app :: app in records ==>
                    records[app] == if app in flagged then old(records)[app].(stale := true) else old(records)[app]
        decreases todo
      {
        var app :| app in todo;
        if IsStale(records[app], before) {
          records := records[app := records[app].(stale := true)];
          flagged := flagged + {app};
        }
        todo := todo - {app};
      }
    }

    method Expired(now: Timestamp) returns (expired: set<AppId>)
      requires Valid()
      ensures expired == set app | app in records && IsExpired(records[app], now)
    {
      return set app | app in records && IsExpired(records[app], now);
    }

    method Delete(app: AppId)
      requires Valid()
      modifies this
      ensures Valid() && records == old(records) - {app}
    {
      records := records - {app};
    }
  }
}
