/**
 * The intake job store and the browser's polling loop over it.
 */
module IntakeJobs {
  import opened Wrappers
  import opened MatchingSchema

  type JobId = string

  datatype JobStatus = Queued | Running | Completed | Failed | Cancelled
  {
    predicate Active() { Queued? || Running? }
  }

  datatype Job = Job(app: AppId, status: JobStatus, lastSequence: nat, errorCode: Option<string>,
    retryable: Option<bool>)

  datatype Event = Event(job: JobId, app: AppId, sequence: nat, stage: string)

  datatype Jobs = Jobs(jobs: map<JobId, Job>, events: map<JobId, seq<Event>>)

  /** Event i is the one with sequence i + 1. */
  predicate Numbered(job: JobId, events: seq<Event>) {
    forall i :: 0 <= i < |events| ==> events[i].sequence == i + 1 && events[i].job == job
  }

  /** The sequence kept on the job counts its events, and the events are numbered without a gap. */
  predicate JobOk(s: Jobs, job: JobId)
    requires job in s.jobs && job in s.events
  {
    s.jobs[job].lastSequence == |s.events[job]| && Numbered(job, s.events[job])
  }

  ghost predicate Consistent(s: Jobs) {
    s.jobs.Keys == s.events.Keys && forall job :: job in s.jobs ==> JobOk(s, job)
  }

  function EventsAfter(events: seq<Event>, after: nat): seq<Event> {
    if events == [] then []
    else
      EventsAfter(events[..|events| - 1], after) +
      if events[|events| - 1].sequence > after then [events[|events| - 1]] else []
  }

  /** Filtering numbered events by sequence is cutting off a prefix. */
  lemma {:induction false} EventsAfterIsSuffix(job: JobId, events: seq<Event>, after: nat)
    requires Numbered(job, events)
    ensures EventsAfter(events, after) == if after <= |events| then events[after..] else []
  {
    if events != [] {
      var n := |events| - 1;
      EventsAfterIsSuffix(job, events[..n], after);
      if after <= n {
        assert events[after..] == events[..n][after..] + [events[n]];
      }
    }
  }

  function Created(s: Jobs, job: JobId, app: AppId): Jobs {
    Jobs(s.jobs[job := Job(app, Queued, 0, None, None)], s.events[job := []])
  }

  function Appended(s: Jobs, job: JobId, stage: string): Jobs
    requires job in s.jobs && job in s.events
  {
    var current := s.jobs[job];
    var event := Event(job, current.app, current.lastSequence + 1, stage);
    Jobs(s.jobs[job := current.(status := if current.status.Queued? then Running else current.status,
                                lastSequence := current.lastSequence + 1)],
         s.events[job := s.events[job] + [event]])
  }

  function Finished(s: Jobs, job: JobId, status: JobStatus, code: Option<string>, retryable: Option<bool>): Jobs
    requires job in s.jobs
  {
    s.(jobs := s.jobs[job := s.jobs[job].(status := status, errorCode := code, retryable := retryable)])
  }

  function Interrupted(job: Job): Job {
    if job.status.Active() then job.(status := Failed, errorCode := Some("service_restarted"), retryable := Some(true))
    else job
  }

  function AllInterrupted(s: Jobs): Jobs {
    s.(jobs := map job | job in s.jobs :: Interrupted(s.jobs[job]))
  }

  function ActiveJobs(jobs: map<JobId, Job>): set<JobId> {
    set job | job in jobs && jobs[job].status.Active()
  }

  class InMemoryIntakeJobStore {
    var jobs: map<JobId, Job>
    var events: map<JobId, seq<Event>>

    ghost function Contents(): Jobs
      reads this
    {
      Jobs(jobs, events)
    }

    ghost predicate Valid()
      reads this
    {
      Consistent(Contents())
    }

    constructor ()
      ensures Valid() && Contents() == Jobs(map[], map[])
    {
      jobs, events := map[], map[];
    }

    method Create(job: JobId, app: AppId) returns (created: bool)
      requires Valid()
      modifies this
      ensures Valid()
      ensures created <==> job !in old(jobs)
      ensures Contents() == if created then Created(old(Contents()), job, app) else old(Contents())
    {
      if job in jobs {
        return false;
      }
      CreateKeepsConsistent(Contents(), job, app);
      jobs := jobs[job := Job(app, Queued, 0, None, None)];
      events := events[job := []];
      return true;
    }

    method Append(job: JobId, stage: string) returns (event: Option<Event>)
      requires Valid()
      modifies this
      ensures Valid()
      ensures event.Some? <==> job in old(jobs)
      ensures event.None? ==> Contents() == old(Contents())
      ensures event.Some? ==> Contents() == Appended(old(Contents()), job, stage)
      ensures event.Some? ==> events[job] == old(events[job]) + [event.value]
    {
      if job !in jobs {
        return None;
      }
      AppendKeepsConsistent(Contents(), job, stage);
      var current := jobs[job];
      var next := Event(job, current.app, current.lastSequence + 1, stage);
      events := events[job := events[job] + [next]];
      jobs := jobs[job := current.(status := if current.status.Queued? then Running else current.status,
                                   lastSequence := current.lastSequence + 1)];
      return Some(next);
    }

    method GetEventsAfter(job: JobId, after: nat) returns (result: Option<seq<Event>>)
      requires Valid()
      ensures result == if job in jobs then Some(EventsAfter(events[job], after)) else None
    {
      if job !in jobs {
        return None;
      }
      var all := events[job];
      var found: seq<Event> := [];
      for i := 0 to |all|
        invariant found == EventsAfter(all[..i], after)
      {
        assert all[..i + 1][..i] == all[..i];
        if all[i].sequence > after {
          found := found + [all[i]];
        }
      }
      assert all[..|all|] == all;
      return Some(found);
    }

    method Finish(job: JobId, status: JobStatus, code: Option<string>, retryable: Option<bool>) returns (known: bool)
      requires Valid()
      modifies this
      ensures Valid()
      ensures known <==> job in old(jobs)
      ensures Contents() == if known then Finished(old(Contents()), job, status, code, retryable) else old(Contents())
    {
      if job !in jobs {
        return false;
      }
      FinishKeepsConsistent(Contents(), job, status, code, retryable);
      jobs := jobs[job := jobs[job].(status := status, errorCode := code, retryable := retryable)];
      return true;
    }

    /** Fails every queued or running job, and says how many there were. */
    method FailInterrupted() returns (count: nat)
      requires Valid()
      modifies this
      ensures Valid()
      ensures Contents() == AllInterrupted(old(Contents()))
      ensures count == |ActiveJobs(old(jobs))| && ActiveJobs(jobs) == {}
    {
      ghost var before := jobs;
      InterruptKeepsConsistent(Contents());
      count := FailActive();
      assert ActiveJobs(before) - {} == ActiveJobs(before);
    }

    method FailActive() returns (count: nat)
      modifies this`jobs
      ensures jobs == Partly(old(jobs), {}) && count == |ActiveJobs(old(jobs)) - {}|
    {
      count := 0;
      var todo := jobs.Keys;
      ghost var before := jobs;
      while todo != {}
        invariant todo <= before.Keys && jobs == Partly(before, todo)
        invariant count == |ActiveJobs(before) - todo|
        decreases |todo|
      {
        var job :| job in todo;
        CountOne(before, todo, job);
        if jobs[job].status.Active() {
          jobs := jobs[job := jobs[job].(status := Failed, errorCode := Some("service_restarted"),
            retryable := Some(true))];
          count := count + 1;
        }
        todo := todo - {job};
      }
    }
  }

  /** The jobs after a pass that still has to visit the given ones. */
  function Partly(jobs: map<JobId, Job>, todo: set<JobId>): map<JobId, Job> {
    map job | job in jobs :: if job in todo then jobs[job] else Interrupted(jobs[job])
  }

  lemma CountOne(jobs: map<JobId, Job>, todo: set<JobId>, job: JobId)
    requires job in todo && job in jobs
    ensures |ActiveJobs(jobs) - (todo - {job})|
        == |ActiveJobs(jobs) - todo| + if jobs[job].status.Active() then 1 else 0
  {
    var sofar := ActiveJobs(jobs) - todo;
    assert ActiveJobs(jobs) - (todo - {job}) == if jobs[job].status.Active() then sofar + {job} else sofar;
  }

  lemma CreateKeepsConsistent(s: Jobs, job: JobId, app: AppId)
    requires Consistent(s) && job !in s.jobs
    ensures Consistent(Created(s, job, app))
  {
    forall other | other in Created(s, job, app).jobs
      ensures JobOk(Created(s, job, app), other)
    {
      if other != job {
        assert JobOk(s, other);
      }
    }
  }

  lemma AppendKeepsConsistent(s: Jobs, job: JobId, stage: string)
    requires Consistent(s) && job in s.jobs
    ensures Consistent(Appended(s, job, stage))
  {
    forall other | other in Appended(s, job, stage).jobs
      ensures JobOk(Appended(s, job, stage), other)
    {
      assert JobOk(s, other);
    }
  }

  lemma FinishKeepsConsistent(s: Jobs, job: JobId, status: JobStatus, code: Option<string>, retryable: Option<bool>)
    requires Consistent(s) && job in s.jobs
    ensures Consistent(Finished(s, job, status, code, retryable))
  {
    forall other | other in s.jobs
      ensures JobOk(Finished(s, job, status, code, retryable), other)
    {
      assert JobOk(s, other);
    }
  }

  lemma InterruptKeepsConsistent(s: Jobs)
    requires Consistent(s)
    ensures Consistent(AllInterrupted(s))
  {
    forall job | job in s.jobs
      ensures JobOk(AllInterrupted(s), job)
    {
      assert JobOk(s, job);
    }
  }

  // ---- the poller ----

  /**
   * The browser keeps the highest sequence it has seen. One round reads the job's status
   * and then its later events; it stops after the round in which the status was final.
   * present is history: how many events there were when the status was read.
   */
  datatype Poller = Poller(seen: nat, received: seq<Event>, looked: Option<JobStatus>, present: nat, stopped: bool)

  datatype World = World(store: Jobs, poller: Poller)

  datatype Action =
    | Create(job: JobId, app: AppId)
    | Append(job: JobId, stage: string)
    | Finish(job: JobId, status: JobStatus, code: Option<string>, retryable: Option<bool>)
    | FailInterrupted
    | ReadStatus
    | ReadEvents

  function MaxSequence(events: seq<Event>, seen: nat): nat {
    if events == [] then seen
    else
      var rest := MaxSequence(events[..|events| - 1], seen);
      if events[|events| - 1].sequence > rest then events[|events| - 1].sequence else rest
  }

  function Poll(s: Jobs, job: JobId, p: Poller): Poller
    requires job in s.events
  {
    var found := EventsAfter(s.events[job], p.seen);
    p.(seen := MaxSequence(found, p.seen), received := p.received + found, looked := None,
       stopped := p.looked.Some? && !p.looked.value.Active())
  }

  function Step(job: JobId, w: World, action: Action): World {
    var s, p := w.store, w.poller;
    match action
    case Create(j, app) => if j in s.jobs then w else w.(store := Created(s, j, app))
    case Append(j, stage) => if j in s.jobs && j in s.events then w.(store := Appended(s, j, stage)) else w
    case Finish(j, status, code, retryable) =>
      if j in s.jobs then w.(store := Finished(s, j, status, code, retryable)) else w
    case FailInterrupted => w.(store := AllInterrupted(s))
    case ReadStatus =>
      if p.stopped || p.looked.Some? || job !in s.jobs || job !in s.events then w
      else w.(poller := p.(looked := Some(s.jobs[job].status), present := |s.events[job]|))
    case ReadEvents =>
      if p.stopped || p.looked.None? || job !in s.events then w else w.(poller := Poll(s, job, p))
  }

  function RunActions(job: JobId, actions: seq<Action>): World {
    if actions == [] then World(Jobs(map[], map[]), Poller(0, [], None, 0, false))
    else Step(job, RunActions(job, actions[..|actions| - 1]), actions[|actions| - 1])
  }

  lemma {:induction false} MaxOfNumbered(found: seq<Event>, seen: nat)
    requires forall i :: 0 <= i < |found| ==> found[i].sequence == seen + i + 1
    ensures MaxSequence(found, seen) == seen + |found|
  {
    if found != [] {
      MaxOfNumbered(found[..|found| - 1], seen);
    }
  }

  /** The poller has received exactly the first events, in order, and once each. */
  predicate Received(job: JobId, w: World) {
    var p := w.poller;
    if job !in w.store.events then p == Poller(0, [], None, 0, false)
    else
      && p.seen <= |w.store.events[job]| && p.received == w.store.events[job][..p.seen]
      && p.present <= |w.store.events[job]|
      && (p.stopped ==> p.present <= p.seen)
  }

  /** A round of a poller that has the first events leaves it with all of them. */
  lemma RoundReads(job: JobId, events: seq<Event>, seen: nat)
    requires Numbered(job, events) && seen <= |events|
    ensures events[..seen] + EventsAfter(events, seen) == events
  {
    EventsAfterIsSuffix(job, events, seen);
  }

  lemma RoundSees(job: JobId, events: seq<Event>, seen: nat)
    requires Numbered(job, events) && seen <= |events|
    ensures MaxSequence(EventsAfter(events, seen), seen) == |events|
  {
    EventsAfterIsSuffix(job, events, seen);
    var found := EventsAfter(events, seen);
    forall i | 0 <= i < |found|
      ensures found[i].sequence == seen + i + 1
    {
      assert found[i] == events[seen + i];
    }
    MaxOfNumbered(found, seen);
  }

  lemma PollKeepsReceived(job: JobId, w: World)
    requires job in w.store.events && Numbered(job, w.store.events[job]) && Received(job, w)
    ensures Received(job, w.(poller := Poll(w.store, job, w.poller)))
    ensures Poll(w.store, job, w.poller).received == w.store.events[job]
  {
    RoundReads(job, w.store.events[job], w.poller.seen);
    RoundSees(job, w.store.events[job], w.poller.seen);
  }

  lemma StepKeepsReceived(job: JobId, w: World, action: Action)
    requires Consistent(w.store) && Received(job, w)
    ensures Consistent(Step(job, w, action).store) && Received(job, Step(job, w, action))
  {
    match action
    case Create(j, app) =>
      if j !in w.store.jobs {
        CreateKeepsConsistent(w.store, j, app);
      }
    case Append(j, stage) =>
      if j in w.store.jobs {
        AppendKeepsConsistent(w.store, j, stage);
      }
    case Finish(j, status, code, retryable) =>
      if j in w.store.jobs {
        FinishKeepsConsistent(w.store, j, status, code, retryable);
      }
    case FailInterrupted => InterruptKeepsConsistent(w.store);
    case ReadStatus =>
    case ReadEvents =>
      if job in w.store.events {
        assert JobOk(w.store, job);
        PollKeepsReceived(job, w);
      }
  }

  lemma {:induction false} RunKeepsReceived(job: JobId, actions: seq<Action>)
    ensures Consistent(RunActions(job, actions).store) && Received(job, RunActions(job, actions))
  {
    if actions != [] {
      RunKeepsReceived(job, actions[..|actions| - 1]);
      StepKeepsReceived(job, RunActions(job, actions[..|actions| - 1]), actions[|actions| - 1]);
    }
  }

  /** Over every interleaving, what was received is a prefix of the job's events: each once, in order. */
  lemma EveryEventOnceInOrder(job: JobId, actions: seq<Action>)
    requires job in RunActions(job, actions).store.events
    ensures var w := RunActions(job, actions);
            && w.poller.seen <= |w.store.events[job]|
            && w.poller.received == w.store.events[job][..w.poller.seen]
            && job in w.store.jobs && w.store.jobs[job].lastSequence == |w.store.events[job]|
  {
    RunKeepsReceived(job, actions);
    assert JobOk(RunActions(job, actions).store, job);
  }

  /** A poller that stopped has received every event there was when it read the final status. */
  lemma StoppedPollerMissedNothing(job: JobId, actions: seq<Action>)
    requires RunActions(job, actions).poller.stopped
    ensures var w := RunActions(job, actions);
            && job in w.store.events && w.poller.present <= |w.poller.received|
  {
    RunKeepsReceived(job, actions);
  }

  /** A round leaves nothing unread. */
  lemma RoundCatchesUp(job: JobId, actions: seq<Action>)
    requires job in RunActions(job, actions).store.events
    ensures var w := RunActions(job, actions); Poll(w.store, job, w.poller).received == w.store.events[job]
  {
    RunKeepsReceived(job, actions);
    assert JobOk(RunActions(job, actions).store, job);
    PollKeepsReceived(job, RunActions(job, actions));
  }
}
