/** Every run of the scheduler: each event keeps the invariant, and what the invariant means to callers. */
module SchedulerRuns {
  import opened Base
  import opened LockTables
  import opened SchedulerModel
  import opened SchedulerInvariants

  // ---------------------------------------------------------------- the invariant between events

  /** The waiting tasks of a host never exceed the configured queue size. */
  ghost predicate Bounded(s: State, host: HostId) {
    WaitingOn(s, host) == {} || |WaitingOn(s, host)| <= s.limits.maxQueueSize
  }

  ghost predicate Calm(s: State, host: HostId) {
    Conserving(s, host) && Numbered(s, host) && Bounded(s, host)
  }

  ghost predicate Sound(s: State, strict: bool) {
    Good(s, None, strict) && forall h :: Calm(s, h)
  }

  // ---------------------------------------------------------------- comparing states

  lemma CardLe<T>(a: set<T>, b: set<T>)
    requires a <= b
    ensures |a| <= |b|
  {
    if a != {} {
      var x :| x in a;
      CardLe(a - {x}, b - {x});
    }
  }

  lemma DistinctCount(ids: seq<TaskId>)
    requires Distinct(ids)
    ensures |ids| == |Elements(ids)|
  {
    if ids != [] {
      var rest := Elements(ids[1..]);
      DistinctCount(ids[1..]);
      assert Elements(ids) == rest + {ids[0]} by {
        assert ids == [ids[0]] + ids[1..];
      }
      assert ids[0] !in rest;
    }
  }

  lemma PickedMore(ids: seq<TaskId>, a: set<TaskId>, more: seq<TaskId>, b: set<TaskId>)
    requires Distinct(ids) && Distinct(more)
    requires forall id :: id in ids && id in a ==> id in more && id in b
    ensures |Picked(ids, a)| <= |Picked(more, b)|
  {
    DistinctCount(Picked(ids, a));
    DistinctCount(Picked(more, b));
    CardLe(Elements(Picked(ids, a)), Elements(Picked(more, b)));
  }

  /** `r` has at least the running tasks and the locks that `s` has on the host. */
  ghost predicate Grows(s: State, r: State, host: HostId) {
    && r.limits == s.limits
    && (forall id <- Ids(s.running, host) :: id in Ids(r.running, host))
    && (forall id <- Competing(s) :: id in Competing(r) && r.tasks[id].job == s.tasks[id].job)
    && (forall k <- s.locks.locks :: k.host == host ==> k in r.locks.locks)
  }

  /** More running tasks and more locks never unblock anything. */
  lemma GrowthKeepsBlocked(s: State, r: State, j: Job)
    requires LocksOwned(r) && Grows(s, r, j.host)
    ensures Startable(r, j) ==> Startable(s, j)
  {
    var ids, more := Ids(s.running, j.host), Ids(r.running, j.host);
    if Startable(r, j) && ids != [] {
      assert ids[0] in ids;
      assert more != [];
      if LockConflicts(r.locks, j) != [] {
        ConflictsHaveOwners(r, j);
      }
      PickedMore(ids, Competing(s), more, Competing(r));
      PickedMore(ids, CompetingHeavy(s), more, CompetingHeavy(r));
      PickedMore(ids, CompetingExclusive(s), more, CompetingExclusive(r));
      SmallBlockers(s, r, j);
    }
  }

  /** The running limit for small and medium tasks, once it is reached, stays reached. */
  lemma SmallBlockers(s: State, r: State, j: Job)
    requires Ids(s.running, j.host) != [] && Ids(r.running, j.host) != [] && Blockers(r, j) == []
    requires LockConflicts(s.locks, j) == [] && LockConflicts(r.locks, j) == [] && r.limits == s.limits
    requires |Picked(Ids(s.running, j.host), Competing(s))| <= |Picked(Ids(r.running, j.host), Competing(r))|
    ensures j.cost == Small || j.cost == Medium ==> Blockers(s, j) == []
  {
  }

  lemma GrowthKeepsConserving(s: State, r: State, host: HostId)
    requires LocksOwned(r) && Grows(s, r, host) && Conserving(s, host)
    requires forall id <- WaitingOn(r, host) :: id in WaitingOn(s, host) && r.tasks[id].job == s.tasks[id].job
    ensures Conserving(r, host)
  {
    forall id <- WaitingOn(r, host) ensures !Startable(r, r.tasks[id].job) {
      GrowthKeepsBlocked(s, r, s.tasks[id].job);
    }
  }

  /** A host whose tasks, index entries and locks are untouched stays as calm as it was. */
  lemma OthersStayCalm(s: State, r: State, pending: Option<TaskId>, host: HostId, h: HostId)
    requires Good(s, pending, false) && Good(r, None, false) && Away(s, r, host) && h != host
    ensures Calm(s, h) ==> Calm(r, h)
  {
    assert WaitingOn(r, h) == WaitingOn(s, h);
    if Calm(s, h) {
      QueueSame(s, r, h);
      forall id <- WaitingOn(r, h) ensures !Startable(r, r.tasks[id].job) {
        SameElsewhere(s, r, pending, host, s.tasks[id].job);
      }
    }
  }

  lemma SameElsewhere(s: State, r: State, pending: Option<TaskId>, host: HostId, j: Job)
    requires Core(s, pending) && Core(r, None) && Away(s, r, host) && j.host != host
    ensures Startable(r, j) <==> Startable(s, j)
  {
    forall id <- Ids(s.running, j.host) ensures id in Competing(r) <==> id in Competing(s) {
      if id in s.tasks {
        assert s.tasks[id].job.host == j.host;
      }
    }
    forall id <- Competing(s) ensures id in r.tasks && r.tasks[id].job == s.tasks[id].job {}
    BlockersSameIfListed(s, r, j);
  }

  lemma BlockersSameIfListed(s: State, r: State, j: Job)
    requires LocksOwned(s) && LocksOwned(r) && r.limits == s.limits && r.tasks.Keys == s.tasks.Keys
    requires Ids(r.running, j.host) == Ids(s.running, j.host)
    requires forall id <- Ids(s.running, j.host) :: id in Competing(r) <==> id in Competing(s)
    requires forall id <- Competing(s) :: id in r.tasks && r.tasks[id].job == s.tasks[id].job
    requires forall k: LockKey :: k.host == j.host ==> (k in r.locks.locks <==> k in s.locks.locks)
    requires forall k <- s.locks.locks :: k.host == j.host ==> r.locks.locks[k] == s.locks.locks[k]
    ensures Startable(r, j) <==> Startable(s, j)
  {
    BlockersSame(s, r, j);
  }

  // ---------------------------------------------------------------- a new request

  /** The state with a fresh request's record in place, before anything is decided about it. */
  ghost predicate Adds(s: State, s1: State, id: TaskId, job: Job) {
    Fresh(s, id) && s1 == With(s, id, NewTask(job))
  }

  lemma AddedKeepsCore(s: State, s1: State, id: TaskId, job: Job)
    requires Core(s, None) && Adds(s, s1, id, job)
    ensures Core(s1, Some(id))
  {
    assert LocksOwned(s1);
    assert HoldersHold(s1);
  }

  lemma AddedIsGood(s: State, s1: State, id: TaskId, job: Job, strict: bool)
    requires Good(s, None, strict) && Adds(s, s1, id, job)
    ensures Good(s1, Some(id), strict)
    ensures Competing(s1) == Competing(s) && CompetingHeavy(s1) == CompetingHeavy(s)
    ensures WaitingOn(s1, job.host) == WaitingOn(s, job.host) + {id}
    ensures forall h :: h != job.host ==> WaitingOn(s1, h) == WaitingOn(s, h)
  {
    AddedKeepsCore(s, s1, id, job);
    assert Competing(s1) == Competing(s);
    assert CompetingHeavy(s1) == CompetingHeavy(s);
  }

  lemma ConflictOwnersKnown(s: State, j: Job)
    requires LocksOwned(s)
    ensures forall l <- LockConflicts(s.locks, j) :: l.ownerTask.Some? && l.ownerTask.value in s.tasks
  {
    forall l <- LockConflicts(s.locks, j) ensures l.ownerTask.Some? && l.ownerTask.value in s.tasks {
      assert l.at in s.locks.locks;
    }
  }

  lemma AddedBlocksSame(s: State, s1: State, id: TaskId, job: Job, j: Job)
    requires Good(s, None, false) && Adds(s, s1, id, job)
    ensures Startable(s1, j) <==> Startable(s, j)
  {
    assert Competing(s1) == Competing(s);
    ConflictOwnersKnown(s, j);
    BlockersSame(s, s1, j);
  }

  /** A fresh request overtakes nobody: whatever waits cannot start. */
  lemma NewcomerOvertakesNone(s: State, s1: State, id: TaskId, job: Job)
    requires Good(s, None, false) && Adds(s, s1, id, job) && Conserving(s, job.host)
    ensures Overtaken(s1, id) == {}
  {
    forall u | u in WaitingOn(s1, job.host) && u != id ensures !Startable(s1, s1.tasks[u].job) {
      AddedBlocksSame(s, s1, id, job, s1.tasks[u].job);
      assert u in WaitingOn(s, job.host);
    }
  }

  /** A fresh task given up at once, or a waiting one withdrawn. */
  lemma WithdrawnIsGood(s1: State, id: TaskId, pending: Option<TaskId>, strict: bool)
    requires Good(s1, pending, strict) && id in s1.tasks && s1.tasks[id].status == Queued
    requires pending == None || pending == Some(id)
    ensures Good(With(s1, id, s1.tasks[id].(status := Cancelled)), None, strict)
  {
    var r := With(s1, id, s1.tasks[id].(status := Cancelled));
    assert CompetingHeavy(r) == CompetingHeavy(s1);
    assert LocksOwned(r);
    assert HoldersHold(r);
  }

  lemma AddedStaysCalm(s: State, s1: State, id: TaskId, job: Job, h: HostId)
    requires Good(s, None, false) && Adds(s, s1, id, job) && h != job.host && Calm(s, h)
    ensures Calm(s1, h)
  {
    AddedIsGood(s, s1, id, job, false);
    QueueSame(s, s1, h);
    forall u <- WaitingOn(s1, h) ensures !Startable(s1, s1.tasks[u].job) {
      AddedBlocksSame(s, s1, id, job, s.tasks[u].job);
    }
  }

  /** After a step on the newcomer's host, the other hosts are calm. */
  lemma NewcomerElsewhereCalm(s: State, s1: State, r: State, id: TaskId, job: Job, h: HostId)
    requires Sound(s, false) && Adds(s, s1, id, job) && h != job.host
    requires Good(r, None, false) && Away(s1, r, job.host)
    ensures Calm(r, h)
  {
    AddedIsGood(s, s1, id, job, false);
    AddedStaysCalm(s, s1, id, job, h);
    OthersStayCalm(s1, r, Some(id), job.host, h);
  }

  lemma PickedAppend(ids: seq<TaskId>, id: TaskId, a: set<TaskId>)
    ensures Picked(ids + [id], a) == Picked(ids, a) + (if id in a then [id] else [])
  {
    if ids != [] {
      PickedAppend(ids[1..], id, a);
      assert (ids + [id])[1..] == ids[1..] + [id];
    }
  }

  lemma PickedWhole(ids: seq<TaskId>, a: set<TaskId>)
    requires forall id <- ids :: id in a
    ensures Picked(ids, a) == ids
  {
    if ids != [] {
      assert ids[0] in ids;
      PickedWhole(ids[1..], a);
    }
  }

  lemma DropAbsent(ix: Index, host: HostId, id: TaskId)
    requires id !in Ids(ix, host)
    ensures Ids(DropId(ix, host, id), host) == Ids(ix, host)
  {
    PickedWhole(Ids(ix, host), (set i <- Ids(ix, host) | i != id));
  }

  lemma LaunchGrows(s1: State, id: TaskId)
    requires Core(s1, Some(id)) && id in s1.tasks && s1.tasks[id].status == Queued && LockFree(s1, s1.tasks[id].job)
    ensures Grows(s1, AfterLaunch(s1, id), s1.tasks[id].job.host)
    ensures WaitingOn(AfterLaunch(s1, id), s1.tasks[id].job.host) == WaitingOn(s1, s1.tasks[id].job.host) - {id}
  {
    LaunchEffect(s1, id);
    LaunchKeepsOtherLocks(s1, id);
    AddIdEffect(s1.running, s1.tasks[id].job.host, id);
  }

  lemma LaunchedGrows(s: State, s1: State, id: TaskId, job: Job)
    requires Core(s, None) && Adds(s, s1, id, job) && LockFree(s1, job)
    ensures Grows(s, AfterLaunch(s1, id), job.host)
    ensures WaitingOn(AfterLaunch(s1, id), job.host) == WaitingOn(s, job.host)
  {
    AddedKeepsCore(s, s1, id, job);
    LaunchGrows(s1, id);
    assert Competing(s1) == Competing(s);
    assert WaitingOn(s1, job.host) == WaitingOn(s, job.host) + {id};
  }

  /** The host of a newcomer that started and stays running. */
  lemma LaunchedCalm(s: State, s1: State, id: TaskId, job: Job)
    requires Good(s, None, false) && Calm(s, job.host) && Adds(s, s1, id, job) && LockFree(s1, job)
    requires Good(AfterLaunch(s1, id), None, false) && Good(s1, Some(id), false)
    ensures Calm(AfterLaunch(s1, id), job.host)
  {
    var r := AfterLaunch(s1, id);
    LaunchEffect(s1, id);
    DropAbsent(s.queued, job.host, id);
    LaunchedGrows(s, s1, id, job);
    QueueSame(s, r, job.host);
    GrowthKeepsConserving(s, r, job.host);
  }

  /** What joining the queue does to the numbering and the size of the queue. */
  lemma EnqueueCalm(x: State, id: TaskId)
    requires id in x.tasks && Enqueued(x, id).1 && IndexesCover(Enqueued(x, id).0, None)
    ensures Numbered(Enqueued(x, id).0, x.tasks[id].job.host)
    ensures Bounded(Enqueued(x, id).0, x.tasks[id].job.host)
  {
    var t := x.tasks[id];
    var s1 := With(x, id, t.(status := Queued, queuedAt := Some(x.now)));
    RenumberedIsNumbered(s1.(queued := AddId(s1.queued, t.job.host, id)), t.job.host);
    EnqueueEffect(x, id);
    var r := Enqueued(x, id).0;
    assert forall u <- WaitingOn(r, t.job.host) :: u in Ids(r.queued, t.job.host);
    assert |Ids(r.queued, t.job.host)| <= r.limits.maxQueueSize;
    DistinctCount(Ids(r.queued, t.job.host));
    CardLe(WaitingOn(r, t.job.host), Elements(Ids(r.queued, t.job.host)));
  }

  /** The host of a newcomer that cannot start and goes to the queue, or is given up there. */
  lemma RequeuedConserves(s: State, s1: State, r: State, id: TaskId, job: Job)
    requires Sound(s, false) && Adds(s, s1, id, job) && Requeues(s1, r, id) && !Startable(s1, job)
    requires Competing(r) == Competing(s1)
    ensures Conserving(r, job.host)
  {
    assert Calm(s, job.host);
    AddedIsGood(s, s1, id, job, false);
    forall u <- WaitingOn(s1, job.host) ensures !Startable(s1, s1.tasks[u].job) {
      if u != id {
        AddedBlocksSame(s, s1, id, job, s.tasks[u].job);
      }
    }
    WaitersStayBlocked(s1, r, id, job.host, []);
  }

  lemma GivenUpCalm(s: State, s1: State, r: State, id: TaskId, job: Job)
    requires Calm(s, job.host) && Adds(s, s1, id, job) && Requeues(s1, r, id) && LocksOwned(r)
    requires r.tasks == s1.tasks[id := r.tasks[id]] && r.tasks[id].status == Cancelled
    requires r.queued == AddId(s.queued, job.host, id)
    ensures Calm(r, job.host)
  {
    PickedAppend(Ids(s.queued, job.host), id, WaitingOn(s, job.host));
    assert WaitingOn(r, job.host) == WaitingOn(s, job.host);
    assert r.tasks == s.tasks[id := r.tasks[id]];
    assert Grows(s, r, job.host);
    StillCalm(s, r, job.host);
  }

  /** A newcomer that failed to get its lock: it waits, or is given up when the index is full. */
  lemma RefusedCalm(s: State, s1: State, id: TaskId, job: Job)
    requires Sound(s, false) && Adds(s, s1, id, job) && !LockFree(s1, job)
    requires Good(Requeued(s1, id), None, false)
    ensures Calm(Requeued(s1, id), job.host)
  {
    var r := Requeued(s1, id);
    var x := Indexed(s1, id);
    assert Calm(s, job.host);
    AddedIsGood(s, s1, id, job, false);
    RequeueEffect(s1, id);
    RequeueKeeps(s1, r, id, false);
    EnqueueEffect(x, id);
    if Enqueued(x, id).1 {
      RequeuedConserves(s, s1, r, id, job);
      EnqueueCalm(x, id);
    } else {
      GivenUpCalm(s, s1, r, id, job);
    }
  }

  /** A newcomer whose runner reports at once: the host is calm, and no more wait than before. */
  lemma ReportedCalm(s: State, r: State, host: HostId)
    requires Calm(s, host) && Conserving(r, host) && Numbered(r, host)
    requires WaitingOn(r, host) <= WaitingOn(s, host) && r.limits == s.limits
    ensures Calm(r, host)
  {
    CardLe(WaitingOn(r, host), WaitingOn(s, host));
  }

  lemma NewcomerHostCalm(s: State, s1: State, id: TaskId, job: Job, strict: bool)
    requires Sound(s, strict) && Adds(s, s1, id, job) && Good(s1, Some(id), strict) && MayStart(s1, id, strict)
    ensures Calm(Start(s1, id).0, job.host)
  {
    assert Calm(s, job.host);
    if !LockFree(s1, job) {
      RefusedStartKeeps(s1, id, strict);
      RefusedCalm(s, s1, id, job);
    } else if job.launch.StaysRunning? {
      LaunchedStartKeeps(s1, id, strict);
      StartIsLaunch(s1, id);
      LaunchedCalm(s, s1, id, job);
    } else {
      StartKeeps(s1, id, strict);
      AddedIsGood(s, s1, id, job, strict);
      ReportedCalm(s, Start(s1, id).0, job.host);
    }
  }

  /** Starting a newcomer, by whichever route, keeps everything. */
  lemma NewcomerStart(s: State, s1: State, id: TaskId, job: Job, strict: bool)
    requires Sound(s, strict) && Adds(s, s1, id, job) && MayStart(s1, id, strict)
    ensures Sound(Start(s1, id).0, strict)
  {
    AddedIsGood(s, s1, id, job, strict);
    StartKeeps(s1, id, strict);
    NewcomerHostCalm(s, s1, id, job, strict);
    forall h ensures Calm(Start(s1, id).0, h) {
      if h != job.host {
        NewcomerElsewhereCalm(s, s1, Start(s1, id).0, id, job, h);
      }
    }
  }

  lemma QueuedRequeues(s1: State, id: TaskId)
    requires id in s1.tasks && s1.tasks[id].status == Queued && Enqueued(s1, id).1
    ensures Requeues(s1, Enqueued(s1, id).0, id)
  {
    AdmissionEffect(s1, id);
    AddIdEffect(s1.queued, s1.tasks[id].job.host, id);
    AdmittedRecords(s1, Enqueued(s1, id).0, id);
  }

  lemma AdmittedRecords(s1: State, r: State, id: TaskId)
    requires id in s1.tasks
    requires SameButPositions(s1.tasks[id := s1.tasks[id].(status := Queued, queuedAt := Some(s1.now))], r.tasks)
    ensures r.tasks.Keys == s1.tasks.Keys
    ensures forall u <- s1.tasks :: u != id ==> r.tasks[u].(queuePosition := s1.tasks[u].queuePosition) == s1.tasks[u]
    ensures r.tasks[id].job == s1.tasks[id].job && r.tasks[id].status == Queued && r.tasks[id].queuedAt == Some(s1.now)
  {
    var before := s1.tasks[id := s1.tasks[id].(status := Queued, queuedAt := Some(s1.now))];
    forall u | u in s1.tasks && u != id
      ensures r.tasks[u].(queuePosition := s1.tasks[u].queuePosition) == s1.tasks[u]
    {
      assert before[u] == s1.tasks[u];
    }
  }

  /** A blocked newcomer that joins the queue. */
  lemma NewcomerQueues(s: State, s1: State, id: TaskId, job: Job, strict: bool)
    requires Sound(s, strict) && Adds(s, s1, id, job) && Blockers(s1, job) != [] && Enqueued(s1, id).1
    ensures Sound(Enqueued(s1, id).0, strict)
  {
    var r := Enqueued(s1, id).0;
    AddedIsGood(s, s1, id, job, strict);
    QueuedRequeues(s1, id);
    RequeueKeeps(s1, r, id, strict);
    RequeuedConserves(s, s1, r, id, job);
    EnqueueCalm(s1, id);
    forall h ensures Calm(r, h) {
      if h != job.host {
        NewcomerElsewhereCalm(s, s1, r, id, job, h);
      }
    }
  }

  /** A host stays calm under a change that touches neither its waiting tasks nor its queue, and only adds to what runs. */
  lemma StillCalm(s: State, r: State, h: HostId)
    requires Calm(s, h) && LocksOwned(r) && Grows(s, r, h)
    requires WaitingOn(r, h) == WaitingOn(s, h)
    requires forall id <- WaitingOn(s, h) :: r.tasks[id] == s.tasks[id]
    requires Picked(Ids(r.queued, h), WaitingOn(s, h)) == Picked(Ids(s.queued, h), WaitingOn(s, h))
    ensures Calm(r, h)
  {
    QueueSame(s, r, h);
    GrowthKeepsConserving(s, r, h);
  }

  lemma FinishedRecordCalm(s: State, r: State, id: TaskId, t: Task, h: HostId)
    requires Good(s, None, false) && Calm(s, h) && id !in s.tasks && r == With(s, id, t)
    requires IsFinished(t.status) && LocksOwned(r)
    ensures Calm(r, h)
  {
    assert WaitingOn(r, h) == WaitingOn(s, h);
    assert Grows(s, r, h);
    StillCalm(s, r, h);
  }

  /** A newcomer that is turned away leaves only a finished record. */
  lemma NewcomerTurnedAway(s: State, s1: State, id: TaskId, job: Job, strict: bool)
    requires Sound(s, strict) && Adds(s, s1, id, job)
    ensures Sound(With(s1, id, s1.tasks[id].(status := Cancelled)), strict)
  {
    var t := s1.tasks[id].(status := Cancelled);
    AddedIsGood(s, s1, id, job, strict);
    WithdrawnIsGood(s1, id, Some(id), strict);
    assert With(s1, id, t) == With(s, id, t);
    forall h ensures Calm(With(s, id, t), h) {
      assert Calm(s, h);
      FinishedRecordCalm(s, With(s, id, t), id, t, h);
    }
  }

  /** Large and exclusive requests that take part in scheduling do not ask to run regardless. */
  predicate CarefulRequest(req: Request) {
    IsHeavy(req.job.cost) && !req.job.bypass ==> req.ifBusy != Some(RunAnyway)
  }

  /** Only exclusive tasks block a tiny one, and beside those nothing is run anyway. */
  lemma TinyNeverRunsAnyway(s: State, req: Request)
    requires Blockers(s, req.job) != [] && req.job.cost == Tiny
    ensures EffectiveIfBusy(s.tasks, req, Blockers(s, req.job)) != RunAnyway
  {
    var b := Blockers(s, req.job)[0];
    assert b in Blockers(s, req.job);
    assert b in s.tasks && s.tasks[b].job.cost == Exclusive;
  }

  /** At the limit all competitors block a small or medium task, so it does not run anyway beside an exclusive one. */
  lemma SmallNeverRunsAnyway(s: State, req: Request, x: TaskId)
    requires Blockers(s, req.job) != [] && (req.job.cost == Small || req.job.cost == Medium)
    requires x in Picked(Ids(s.running, req.job.host), Competing(s)) && s.tasks[x].job.cost == Exclusive
    ensures EffectiveIfBusy(s.tasks, req, Blockers(s, req.job)) != RunAnyway
  {
    assert x in Blockers(s, req.job);
  }

  /** Nor does a heavy one beside an exclusive task of the scheduler's own, whose host lock the check comes upon. */
  lemma HeavyNeverRunsAnyway(s: State, req: Request, x: TaskId)
    requires Core(s, Some(req.id)) && IsHeavy(req.job.cost)
    requires x in CompetingExclusive(s) && s.tasks[x].job.host == req.job.host && !s.tasks[x].job.external
    ensures EffectiveIfBusy(s.tasks, req, Blockers(s, req.job)) != RunAnyway
  {
    OwnExclusiveBlocksHeavy(s, req.job, x, Some(req.id));
  }

  lemma HeavyRanAnywayFairly(s: State, req: Request)
    requires Core(s, Some(req.id)) && req.id in s.tasks && s.tasks[req.id].job == req.job
    requires EffectiveIfBusy(s.tasks, req, Blockers(s, req.job)) == RunAnyway
    ensures BesideOwnExclusive(RecordOf(s, req.id)) ==> !IsHeavy(req.job.cost)
  {
    var r, job := RecordOf(s, req.id), req.job;
    if BesideOwnExclusive(r) && IsHeavy(job.cost) {
      var j :| j in r.beside && j.cost == Exclusive && !j.external;
      var i :| 0 <= i < |r.beside| && r.beside[i] == j;
      HeavyNeverRunsAnyway(s, req, Picked(Ids(s.running, job.host), Competing(s))[i]);
    }
  }

  lemma RanAnywayFairly(s: State, req: Request)
    requires req.id in s.tasks && s.tasks[req.id].job == req.job && Blockers(s, req.job) != []
    requires EffectiveIfBusy(s.tasks, req, Blockers(s, req.job)) == RunAnyway
    ensures BesideExclusive(RecordOf(s, req.id)) ==> LightBesideExclusive(RecordOf(s, req.id), s.limits)
  {
    var r, job := RecordOf(s, req.id), req.job;
    if job.cost == Tiny {
      TinyNeverRunsAnyway(s, req);
    } else if BesideExclusive(r) && (job.cost == Small || job.cost == Medium) {
      var j :| j in r.beside && j.cost == Exclusive;
      var i :| 0 <= i < |r.beside| && r.beside[i] == j;
      SmallNeverRunsAnyway(s, req, Picked(Ids(s.running, job.host), Competing(s))[i]);
    }
  }

  lemma NewcomerMayStart(s: State, s1: State, req: Request, strict: bool)
    requires Sound(s, strict) && Adds(s, s1, req.id, req.job)
    requires strict ==> CarefulRequest(req)
    requires req.job.bypass || Blockers(s1, req.job) == []
             || EffectiveIfBusy(s1.tasks, req, Blockers(s1, req.job)) == RunAnyway
    ensures MayStart(s1, req.id, strict)
  {
    var job, blockers := req.job, Blockers(s1, req.job);
    assert Calm(s, job.host);
    AddedIsGood(s, s1, req.id, job, strict);
    NewcomerOvertakesNone(s, s1, req.id, job);
    if !job.bypass {
      if blockers == [] {
        UnblockedIsAdmitted(s1, req.id);
      } else {
        RanAnywayFairly(s1, req);
        HeavyRanAnywayFairly(s1, req);
      }
    }
  }

  lemma ScheduleKeeps(s: State, req: Request, strict: bool)
    requires Sound(s, strict) && Fresh(s, req.id) && (strict ==> CarefulRequest(req))
    ensures Sound(Schedule(s, req).0, strict)
  {
    if req.risky && !req.force {
      return;
    }
    var own := req.(job := req.job.(external := false));
    var id, job := own.id, own.job;
    var s1 := With(s, id, NewTask(job));
    var blockers := Blockers(s1, job);
    var ifBusy := EffectiveIfBusy(s1.tasks, own, blockers);
    if job.bypass || blockers == [] || ifBusy == RunAnyway {
      NewcomerMayStart(s, s1, own, strict);
      NewcomerStart(s, s1, id, job, strict);
    } else if ifBusy == Queue && Enqueued(s1, id).1 {
      NewcomerQueues(s, s1, id, job, strict);
    } else {
      NewcomerTurnedAway(s, s1, id, job, strict);
    }
  }

  // ---------------------------------------------------------------- the other events

  /** A step that works on one host and leaves it calm keeps every host calm. */
  lemma HostStepKeeps(s: State, r: State, host: HostId, strict: bool)
    requires Sound(s, strict) && Good(r, None, strict) && Away(s, r, host)
    requires Conserving(r, host) && Numbered(r, host) && WaitingOn(r, host) <= WaitingOn(s, host)
    ensures Sound(r, strict)
  {
    assert Calm(s, host);
    CardLe(WaitingOn(r, host), WaitingOn(s, host));
    forall h ensures Calm(r, h) {
      assert Calm(s, h);
      if h != host {
        OthersStayCalm(s, r, None, host, h);
      }
    }
  }

  /** A task ends, and its host's queue is pumped. */
  lemma EndThenPump(s: State, s1: State, id: TaskId, strict: bool)
    requires Sound(s, strict) && Ends(s, s1, id)
    ensures Sound(Pump(s1, s.tasks[id].job.host), strict)
  {
    EndThenPumpOnHost(s, s1, id, strict);
    HostStepKeeps(s, Pump(s1, s.tasks[id].job.host), s.tasks[id].job.host, strict);
  }

  lemma EndThenPumpOnHost(s: State, s1: State, id: TaskId, strict: bool)
    requires Good(s, None, strict) && Ends(s, s1, id)
    ensures var host := s.tasks[id].job.host; var r := Pump(s1, host);
            && Good(r, None, strict) && Away(s, r, host)
            && Conserving(r, host) && Numbered(r, host) && WaitingOn(r, host) <= WaitingOn(s, host)
  {
    var host := s.tasks[id].job.host;
    EndKeeps(s, s1, id, strict);
    PumpKeeps(s1, host, strict);
    AwayTrans(s, s1, Pump(s1, host), host);
    EndShrinks(s, s1, id);
  }

  lemma EndShrinks(s: State, s1: State, id: TaskId)
    requires Ends(s, s1, id)
    ensures forall h :: WaitingOn(s1, h) <= WaitingOn(s, h)
  {
  }

  lemma ReportKeeps(s: State, id: TaskId, code: int, strict: bool)
    requires Sound(s, strict)
    ensures Sound(Finish(s, id, code), strict)
  {
    if id in s.tasks && s.tasks[id].status != Cancelled {
      SettledEnds(s, id, StatusFor(code), Some(code));
      EndThenPump(s, Settled(s, id, StatusFor(code), Some(code)), id, strict);
    }
  }

  /** A refused cancellation moves the task to the end of its host's running index, and changes nothing else. */
  lemma RefusedCancelShape(s: State, id: TaskId)
    requires id in s.tasks && s.tasks[id].status == Running && id in Ids(s.running, s.tasks[id].job.host)
    ensures var r := Cancel(s, id, false).0;
            && r == s.(tasks := s.tasks[id := s.tasks[id].(finishedAt := None)], running := r.running)
            && forall h, u :: u in Ids(r.running, h) <==> u in Ids(s.running, h)
  {
    var host := s.tasks[id].job.host;
    DropIdEffect(s.running, host, id);
    AddIdEffect(DropId(s.running, host, id), host, id);
  }

  lemma ReorderedCalm(s: State, r: State, id: TaskId, h: HostId)
    requires Good(s, None, false) && Good(r, None, false) && Calm(s, h) && id in s.tasks && s.tasks[id].status == Running
    requires r == s.(tasks := s.tasks[id := s.tasks[id].(finishedAt := None)], running := r.running)
    requires forall g, u :: u in Ids(r.running, g) <==> u in Ids(s.running, g)
    ensures Calm(r, h)
  {
    assert WaitingOn(r, h) == WaitingOn(s, h);
    StillCalm(s, r, h);
  }

  lemma RefusedCancelKeeps(s: State, id: TaskId, strict: bool)
    requires Sound(s, strict) && id in s.tasks && s.tasks[id].status == Running
    ensures Sound(Cancel(s, id, false).0, strict)
  {
    var r := Cancel(s, id, false).0;
    RefusedCancelShape(s, id);
    ReorderedIsGood(s, r, id, strict);
    forall h ensures Calm(r, h) {
      assert Calm(s, h);
      ReorderedCalm(s, r, id, h);
    }
  }

  lemma ReorderedIsGood(s: State, r: State, id: TaskId, strict: bool)
    requires Good(s, None, strict) && id in s.tasks && id in r.tasks
    requires r == s.(tasks := r.tasks, running := r.running)
    requires r.tasks == s.tasks[id := s.tasks[id].(finishedAt := None)]
    requires forall h, u :: u in Ids(r.running, h) <==> u in Ids(s.running, h)
    ensures Good(r, None, strict) && Competing(r) == Competing(s)
  {
    assert Competing(r) == Competing(s);
    assert CompetingHeavy(r) == CompetingHeavy(s);
    assert LocksOwned(r);
    assert HoldersHold(r);
  }

  lemma CancelKeeps(s: State, id: TaskId, accepted: bool, strict: bool)
    requires Sound(s, strict)
    ensures Sound(Cancel(s, id, accepted).0, strict)
  {
    if id in s.tasks && (s.tasks[id].status == Running || s.tasks[id].status == Queued) {
      if s.tasks[id].status == Running && !accepted {
        RefusedCancelKeeps(s, id, strict);
      } else {
        SettledEnds(s, id, Cancelled, s.tasks[id].exitCode);
        EndThenPump(s, Settled(s, id, Cancelled, s.tasks[id].exitCode), id, strict);
      }
    }
  }

  lemma WithdrawnRenumbered(s1: State, host: HostId, strict: bool)
    requires Good(s1, None, strict) && Conserving(s1, host)
    ensures var r := Renumbered(s1, host);
            && Good(r, None, strict) && Away(s1, r, host) && Conserving(r, host) && Numbered(r, host)
            && WaitingOn(r, host) == WaitingOn(s1, host)
  {
    RenumberedAway(s1, host);
    RenumberedIsNumbered(s1, host);
    PositionsDoNotMatter(s1, Renumbered(s1, host), strict);
  }

  lemma RenumberedAway(s1: State, host: HostId)
    ensures var r := Renumbered(s1, host);
            && r == s1.(tasks := r.tasks) && SameButPositions(s1.tasks, r.tasks)
            && Away(s1, r, host) && WaitingOn(r, host) == WaitingOn(s1, host)
  {
    RenumberEffect(s1, host);
  }

  lemma DequeueKeeps(s: State, id: TaskId, strict: bool)
    requires Sound(s, strict)
    ensures Sound(Dequeue(s, id).0, strict)
  {
    if id in s.tasks && s.tasks[id].status == Queued {
      var host := s.tasks[id].job.host;
      assert Calm(s, host);
      DequeueOnHost(s, id, strict);
      HostStepKeeps(s, Dequeue(s, id).0, host, strict);
    }
  }

  lemma WithdrawnAway(s: State, id: TaskId)
    requires id in s.tasks && s.tasks[id].status == Queued
    ensures var s1 := With(s, id, s.tasks[id].(status := Cancelled)); var host := s.tasks[id].job.host;
            Away(s, s1, host) && WaitingOn(s1, host) <= WaitingOn(s, host)
  {
  }

  lemma DequeueOnHost(s: State, id: TaskId, strict: bool)
    requires Good(s, None, strict) && id in s.tasks && s.tasks[id].status == Queued && Conserving(s, s.tasks[id].job.host)
    ensures var host := s.tasks[id].job.host; var r := Dequeue(s, id).0;
            && Good(r, None, strict) && Away(s, r, host)
            && Conserving(r, host) && Numbered(r, host) && WaitingOn(r, host) <= WaitingOn(s, host)
  {
    var host := s.tasks[id].job.host;
    var s1 := With(s, id, s.tasks[id].(status := Cancelled));
    WithdrawnIsGood(s, id, None, strict);
    WithdrawnAway(s, id);
    WithdrawnConserves(s, s1, id);
    WithdrawnRenumbered(s1, host, strict);
    AwayTrans(s, s1, Dequeue(s, id).0, host);
  }

  lemma WithdrawnConserves(s: State, s1: State, id: TaskId)
    requires Good(s, None, false) && Good(s1, None, false) && id in s.tasks && s.tasks[id].status == Queued
    requires s1 == With(s, id, s.tasks[id].(status := Cancelled)) && Conserving(s, s.tasks[id].job.host)
    ensures Conserving(s1, s.tasks[id].job.host)
  {
    GrowthKeepsConserving(s, s1, s.tasks[id].job.host);
  }

  lemma ExternalEndKeeps(s: State, id: TaskId, status: Status, code: int, strict: bool)
    requires Sound(s, strict) && IsFinished(status)
    ensures Sound(FinishExternal(s, id, status, code), strict)
  {
    if id in s.tasks && s.tasks[id].status == Running {
      var s1 := With(s, id, s.tasks[id].(status := status, finishedAt := Some(s.now), exitCode := Some(code)))
                .(locks := ReleasedForTask(s.locks, id), lockIds := s.lockIds - {id});
      assert Ends(s, s1, id);
      EndThenPump(s, s1, id, strict);
    }
  }

  /** The record of an external task, before its lock is asked for. */
  ghost predicate AddsExternal(s: State, s1: State, id: TaskId, job: Job) {
    && Fresh(s, id) && job.external
    && s1 == Indexed(With(s, id, NewTask(job).(status := Running, startedAt := Some(s.now))), id)
  }

  /** External tasks are taken to be light, or to bypass the scheduler. */
  predicate CarefulExternal(job: Job) {
    IsHeavy(job.cost) ==> job.bypass
  }

  lemma ExternalKeepsCore(s: State, s1: State, id: TaskId, job: Job)
    requires Core(s, None) && AddsExternal(s, s1, id, job)
    ensures Core(s1, None)
  {
    AddIdEffect(s.running, job.host, id);
    assert LocksOwned(s1);
    assert HoldersHold(s1);
  }

  lemma ExternalGrows(s: State, s1: State, id: TaskId, job: Job)
    requires AddsExternal(s, s1, id, job)
    ensures forall h :: WaitingOn(s1, h) == WaitingOn(s, h)
    ensures forall h :: Grows(s, s1, h)
    ensures s1.locks == s.locks && s1.limits == s.limits && s1.history == s.history
    ensures CompetingHeavy(s1) <= CompetingHeavy(s) + (if IsHeavy(job.cost) && !job.bypass then {id} else {})
  {
    AddIdEffect(s.running, job.host, id);
    assert s1.running == AddId(s.running, job.host, id);
  }

  lemma ExternalIsGood(s: State, s1: State, id: TaskId, job: Job, strict: bool)
    requires Good(s, None, strict) && AddsExternal(s, s1, id, job) && (strict ==> CarefulExternal(job))
    ensures Good(s1, None, strict)
    ensures forall h :: WaitingOn(s1, h) == WaitingOn(s, h)
    ensures forall h :: Grows(s, s1, h)
    ensures forall k <- s1.locks.locks :: s1.locks.locks[k].ownerTask != Some(id)
  {
    ExternalKeepsCore(s, s1, id, job);
    ExternalGrows(s, s1, id, job);
  }

  lemma ExternalLockOwned(s1: State, id: TaskId)
    requires LocksOwned(s1) && LocksLive(s1) && id in s1.tasks && s1.tasks[id].status == Running
    requires forall k <- s1.locks.locks :: s1.locks.locks[k].ownerTask != Some(id)
    ensures var r := WithLocks(s1, id).0;
            && LocksOwned(r) && LocksLive(r) && r == s1.(locks := r.locks, lockIds := r.lockIds)
            && (forall k <- s1.locks.locks :: k in r.locks.locks && r.locks.locks[k] == s1.locks.locks[k])
  {
    LockOutcome(s1, id);
    forall k <- s1.locks.locks
      ensures s1.locks.locks[k].ownerTask.Some? && s1.locks.locks[k].ownerTask.value != id
    {
    }
  }

  /** An external task takes its lock if it can, and runs in any case. */
  lemma ExternalLockIsGood(s1: State, id: TaskId, strict: bool)
    requires Good(s1, None, strict) && id in s1.tasks && s1.tasks[id].status == Running && s1.tasks[id].job.external
    requires forall k <- s1.locks.locks :: s1.locks.locks[k].ownerTask != Some(id)
    ensures var r := WithLocks(s1, id).0;
            && Good(r, None, strict) && r == s1.(locks := r.locks, lockIds := r.lockIds)
            && (forall k <- s1.locks.locks :: k in r.locks.locks)
  {
    ExternalLockOwned(s1, id);
    var r := WithLocks(s1, id).0;
    assert HoldersHold(r);
    assert CompetingHeavy(r) == CompetingHeavy(s1);
  }

  lemma ExternalStartKeeps(s: State, id: TaskId, job: Job, strict: bool)
    requires Sound(s, strict) && Fresh(s, id) && (strict ==> CarefulExternal(job))
    ensures Sound(RegisterExternal(s, id, job), strict)
  {
    var ext := job.(external := true);
    var s1 := Indexed(With(s, id, NewTask(ext).(status := Running, startedAt := Some(s.now))), id);
    ExternalIsGood(s, s1, id, ext, strict);
    ExternalLockIsGood(s1, id, strict);
    var r := RegisterExternal(s, id, job);
    assert r == WithLocks(s1, id).0;
    forall h ensures Calm(r, h) {
      assert Calm(s, h) && Grows(s, s1, h);
      assert WaitingOn(r, h) == WaitingOn(s1, h);
      StillCalm(s, r, h);
    }
  }

  lemma RenewedOwned(s: State)
    requires LocksOwned(s)
    ensures LocksOwned(Renew(s)) && Renew(s).locks.locks.Keys == s.locks.locks.Keys
  {
    var r := Renew(s);
    assert r.locks.locks.Keys == s.locks.locks.Keys;
    forall k <- r.locks.locks
      ensures r.locks.locks[k] == s.locks.locks[k].(expiresAt := r.locks.locks[k].expiresAt)
    {
    }
  }

  lemma RenewedLive(s: State)
    requires LocksOwned(s)
    ensures LocksLive(Renew(s))
  {
    var r := Renew(s);
    forall k <- r.locks.locks ensures r.locks.locks[k].expiresAt >= r.lastRenew + DEFAULT_TTL {
      var l := s.locks.locks[k];
      assert l.id in s.lockIds[l.ownerTask.value];
    }
  }

  lemma RenewedHeld(s: State)
    requires HoldersHold(s)
    ensures HoldersHold(Renew(s)) && CompetingHeavy(Renew(s)) == CompetingHeavy(s)
  {
    assert Renew(s).locks.locks.Keys == s.locks.locks.Keys;
    forall id <- s.tasks | s.tasks[id].status == Running && !s.tasks[id].job.external && NeededLock(s.tasks[id].job).Some?
      ensures Holds(Renew(s), id, NeededLock(s.tasks[id].job).value)
    {
      assert Holds(s, id, NeededLock(s.tasks[id].job).value);
    }
  }

  lemma RenewedIsGood(s: State, strict: bool)
    requires Good(s, None, strict)
    ensures Good(Renew(s), None, strict)
  {
    RenewedOwned(s);
    RenewedLive(s);
    RenewedHeld(s);
  }

  lemma RenewKeeps(s: State, strict: bool)
    requires Sound(s, strict)
    ensures Sound(Renew(s), strict)
  {
    RenewedOwned(s);
    RenewedIsGood(s, strict);
    forall h ensures Calm(Renew(s), h) {
      assert Calm(s, h);
      assert WaitingOn(Renew(s), h) == WaitingOn(s, h);
      StillCalm(s, Renew(s), h);
    }
  }

  lemma ClockKeeps(s: State, now: Time, strict: bool)
    requires Sound(s, strict) && s.now <= now <= s.lastRenew + DEFAULT_TTL
    ensures Sound(s.(now := now), strict)
  {
    var r := s.(now := now);
    assert CompetingHeavy(r) == CompetingHeavy(s);
    forall h ensures Calm(r, h) {
      assert Calm(s, h);
      assert WaitingOn(r, h) == WaitingOn(s, h);
      StillCalm(s, r, h);
    }
  }

  lemma EvictedIsGood(s: State, r: State, ids: set<TaskId>, strict: bool)
    requires Good(s, None, strict) && forall id <- ids :: id in s.tasks ==> IsFinished(s.tasks[id].status)
    requires r == s.(tasks := s.tasks - ids)
    ensures Good(r, None, strict)
  {
    assert CompetingHeavy(r) == CompetingHeavy(s);
    assert LocksOwned(r);
    assert HoldersHold(r);
  }

  lemma EvictKeeps(s: State, ids: set<TaskId>, strict: bool)
    requires Sound(s, strict) && forall id <- ids :: id in s.tasks ==> IsFinished(s.tasks[id].status)
    ensures Sound(s.(tasks := s.tasks - ids), strict)
  {
    var r := s.(tasks := s.tasks - ids);
    EvictedIsGood(s, r, ids, strict);
    forall h ensures Calm(r, h) {
      assert Calm(s, h);
      assert WaitingOn(r, h) == WaitingOn(s, h);
      StillCalm(s, r, h);
    }
  }

  // ---------------------------------------------------------------- runs

  predicate Careful(e: Event) {
    match e
    case ScheduleCall(req) => CarefulRequest(req)
    case ExternalStart(_, job) => CarefulExternal(job)
    case _ => true
  }

  lemma StepKeeps(s: State, e: Event, strict: bool)
    requires Sound(s, strict) && Legal(s, e) && (strict ==> Careful(e))
    ensures Sound(Step(s, e), strict)
  {
    match e
    case ScheduleCall(req) => ScheduleKeeps(s, req, strict);
    case RunnerReport(id, code) => ReportKeeps(s, id, code, strict);
    case CancelCall(id, accepted) => CancelKeeps(s, id, accepted, strict);
    case DequeueCall(id) => DequeueKeeps(s, id, strict);
    case ExternalStart(id, job) => ExternalStartKeeps(s, id, job, strict);
    case ExternalEnd(id, status, code) => ExternalEndKeeps(s, id, status, code, strict);
    case RenewTick => RenewKeeps(s, strict);
    case ClockMoves(now) => ClockKeeps(s, now, strict);
    case Evict(ids) => EvictKeeps(s, ids, strict);
  }

  function Run(s: State, es: seq<Event>): State
    decreases |es|
  {
    if es == [] then s else Run(Step(s, es[0]), es[1..])
  }

  ghost predicate LegalRun(s: State, es: seq<Event>)
    decreases |es|
  {
    es != [] ==> Legal(s, es[0]) && LegalRun(Step(s, es[0]), es[1..])
  }

  lemma {:induction false} RunKeeps(s: State, es: seq<Event>, strict: bool)
    requires Sound(s, strict) && LegalRun(s, es)
    requires strict ==> forall e <- es :: Careful(e)
    ensures Sound(Run(s, es), strict)
    decreases |es|
  {
    if es != [] {
      assert es[0] in es;
      StepKeeps(s, es[0], strict);
      RunKeeps(Step(s, es[0]), es[1..], strict);
    }
  }

  lemma {:induction false} LimitsStay(s: State, es: seq<Event>)
    ensures Run(s, es).limits == s.limits
    decreases |es|
  {
    if es != [] {
      StepKeepsLimits(s, es[0]);
      LimitsStay(Step(s, es[0]), es[1..]);
    }
  }

  lemma StepKeepsLimits(s: State, e: Event)
    ensures Step(s, e).limits == s.limits
  {
  }

  lemma EmptyIsSound(limits: Limits, now: Time)
    ensures Sound(Empty(limits, now), true)
  {
    var s := Empty(limits, now);
    forall h ensures Calm(s, h) {
      assert WaitingOn(s, h) == {};
    }
  }
}
