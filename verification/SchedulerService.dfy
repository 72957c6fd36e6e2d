/** The scheduler object itself: maps updated in place, proved step by step against the model. */
module SchedulerServices {
  import opened Base
  import opened LockTables
  import opened LockManagers
  import opened SchedulerModel
  import opened SchedulerInvariants
  import opened SchedulerRuns

  class SchedulerService {
    const limits: Limits
    const lockManager: LockManager
    var tasks: map<TaskId, Task>
    var runningByHost: Index
    var queuedByHost: Index
    var taskLockIds: map<TaskId, seq<LockId>>
    var clock: Time
    ghost var lastRenew: Time
    ghost var history: seq<StartRecord>

    ghost function View(): State
      reads this, lockManager
    {
      State(limits, tasks, runningByHost, queuedByHost, taskLockIds, lockManager.Table(), clock, lastRenew, history)
    }

    ghost predicate Locked()
      reads lockManager
    {
      lockManager.ttl == DEFAULT_TTL && Consistent(lockManager.Table())
    }

    // The queue index lists each task under its own host.
    ghost predicate HostsMatch()
      reads this
    {
      forall h, id :: id in Ids(queuedByHost, h) && id in tasks ==> tasks[id].job.host == h
    }

    constructor (limits: Limits, now: Time)
      ensures View() == Empty(limits, now) && Locked() && fresh(lockManager)
    {
      this.limits := limits;
      lockManager := new LockManager();
      tasks, runningByHost, queuedByHost, taskLockIds := map[], map[], map[], map[];
      clock, lastRenew, history := now, now, [];
    }

    // -------------------------------------------------------------- indexes

    method AddToIndex(id: TaskId)
      requires id in tasks
      modifies this
      ensures View() == Indexed(old(View()), id)
    {
      var task := tasks[id];
      if task.status == Running {
        var set' := Ids(runningByHost, task.job.host);
        if id !in set' { runningByHost := runningByHost[task.job.host := set' + [id]]; }
      } else if task.status == Queued {
        var set' := Ids(queuedByHost, task.job.host);
        if id !in set' { queuedByHost := queuedByHost[task.job.host := set' + [id]]; }
      }
    }

    method RemoveFromIndex(id: TaskId)
      requires id in tasks
      modifies this
      ensures View() == Unindexed(old(View()), id)
    {
      var task := tasks[id];
      if task.status == Running {
        runningByHost := DropId(runningByHost, task.job.host, id);
      } else if task.status == Queued {
        queuedByHost := DropId(queuedByHost, task.job.host, id);
      }
    }

    /** The non-bypass running tasks of a host, in index order. */
    method GetNonBypassRunningTasks(host: HostId) returns (found: seq<TaskId>)
      ensures found == Picked(Ids(runningByHost, host), Competing(View()))
    {
      found := [];
      var ids := Ids(runningByHost, host);
      for i := 0 to |ids|
        invariant found == Picked(ids[..i], Competing(View()))
      {
        PickedAppend(ids[..i], ids[i], Competing(View()));
        assert ids[..i + 1] == ids[..i] + [ids[i]];
        if ids[i] in tasks && tasks[ids[i]].status == Running && !tasks[ids[i]].job.bypass {
          found := found + [ids[i]];
        }
      }
      assert ids[..|ids|] == ids;
    }

    method GetQueuedTasks(host: HostId) returns (found: seq<TaskId>)
      requires HostsMatch()
      ensures found == QueuedHere(View(), host)
    {
      found := [];
      var ids := Ids(queuedByHost, host);
      for i := 0 to |ids|
        invariant found == Picked(ids[..i], WaitingOn(View(), host))
      {
        PickedAppend(ids[..i], ids[i], WaitingOn(View(), host));
        assert ids[..i + 1] == ids[..i] + [ids[i]];
        if ids[i] in tasks && tasks[ids[i]].status == Queued {
          found := found + [ids[i]];
        }
      }
      assert ids[..|ids|] == ids;
      found := SortByQueuedAt(tasks, found);
    }

    // -------------------------------------------------------------- queueing

    method SetPosition(id: TaskId, next: nat)
      requires id in tasks
      modifies this
      ensures View() == With(old(View()), id, old(tasks)[id].(queuePosition := Some(next)))
    {
      if tasks[id].queuePosition != Some(next) {
        tasks := tasks[id := tasks[id].(queuePosition := Some(next))];
      }
      assert tasks == old(tasks)[id := old(tasks)[id].(queuePosition := Some(next))];
    }

    method RecomputeQueuePositions(host: HostId)
      requires HostsMatch()
      modifies this
      ensures View() == Renumbered(old(View()), host)
    {
      var queued := GetQueuedTasks(host);
      ghost var s := View();
      assert forall id <- queued :: id in s.tasks;
      for i := 0 to |queued|
        invariant tasks.Keys == s.tasks.Keys
        invariant NumberFrom(tasks, queued, i) == NumberFrom(s.tasks, queued, 0)
        invariant View() == s.(tasks := tasks)
      {
        assert queued[i] in queued;
        SetPosition(queued[i], i + 1);
      }
    }

    method Enqueue(id: TaskId) returns (queued: bool)
      requires id in tasks && HostsMatch()
      modifies this
      ensures (View(), queued) == Enqueued(old(View()), id)
    {
      var task := tasks[id];
      if |Ids(queuedByHost, task.job.host)| >= limits.maxQueueSize {
        tasks := tasks[id := task.(status := Cancelled)];
        return false;
      }
      tasks := tasks[id := task.(status := Queued, queuedAt := Some(clock))];
      AddToIndex(id);
      AddIdEffect(old(queuedByHost), task.job.host, id);
      RecomputeQueuePositions(task.job.host);
      return true;
    }

    // -------------------------------------------------------------- blockers

    /** The exclusive, or the large and exclusive, tasks among the given competitors. */
    method FilterByCost(nonBypass: seq<TaskId>, largeToo: bool) returns (found: seq<TaskId>)
      requires forall id <- nonBypass :: id in Competing(View())
      ensures found == Picked(nonBypass, if largeToo then CompetingHeavy(View()) else CompetingExclusive(View()))
    {
      found := [];
      ghost var chosen := if largeToo then CompetingHeavy(View()) else CompetingExclusive(View());
      for i := 0 to |nonBypass|
        invariant found == Picked(nonBypass[..i], chosen)
      {
        PickedAppend(nonBypass[..i], nonBypass[i], chosen);
        assert nonBypass[..i + 1] == nonBypass[..i] + [nonBypass[i]];
        assert nonBypass[i] in nonBypass;
        var cost := tasks[nonBypass[i]].job.cost;
        if cost == Exclusive || (largeToo && cost == Large) {
          found := found + [nonBypass[i]];
        }
      }
      assert nonBypass[..|nonBypass|] == nonBypass;
    }

    method FindBlockers(job: Job) returns (blockers: seq<TaskId>)
      requires Locked() && AllFresh(lockManager.Table(), clock)
      modifies lockManager
      ensures View() == old(View()) && Locked()
      ensures blockers == Blockers(View(), job)
    {
      if Ids(runningByHost, job.host) == [] {
        return [];
      }
      var nonBypass := GetNonBypassRunningTasks(job.host);
      if IsHeavy(job.cost) && job.cwd.Some? {
        NothingExpired(lockManager.Table(), clock);
        var conflicts := lockManager.GetConflictingLocks(WorkdirScope, job.cwd.value, job.host, clock);
        if |conflicts| > 0 {
          return OwnersOf(tasks, conflicts);
        }
      }
      blockers := ByCost(job, nonBypass);
    }

    /** Who stands in the way by the cost of the job alone. */
    method ByCost(job: Job, nonBypass: seq<TaskId>) returns (blockers: seq<TaskId>)
      requires nonBypass == Picked(Ids(runningByHost, job.host), Competing(View())) && Ids(runningByHost, job.host) != []
      ensures blockers == CostBlockers(View(), job)
    {
      CostBlockersPicked(View(), job);
      match job.cost {
        case Tiny => blockers := FilterByCost(nonBypass, false);
        case Small => blockers := if |nonBypass| >= limits.maxTotalRunning then nonBypass else [];
        case Medium => blockers := if |nonBypass| >= limits.maxTotalRunning then nonBypass else [];
        case Large => blockers := FilterByCost(nonBypass, true);
        case Exclusive => blockers := nonBypass;
      }
    }

    /** The pump's check: locks first, then the counts taken at the start of the pass. */
    method FindBlockersWithPrecomputed(job: Job, nonBypass: seq<TaskId>, count: nat, heavyCount: nat, exclusiveCount: nat)
      returns (blockers: seq<TaskId>)
      requires Locked() && AllFresh(lockManager.Table(), clock)
      requires forall id <- nonBypass :: id in Competing(View())
      modifies lockManager
      ensures View() == old(View()) && Locked()
      ensures blockers == FastBlockers(View(), job, nonBypass, count, heavyCount, exclusiveCount)
    {
      if IsHeavy(job.cost) && job.cwd.Some? {
        NothingExpired(lockManager.Table(), clock);
        var conflicts := lockManager.GetConflictingLocks(WorkdirScope, job.cwd.value, job.host, clock);
        if |conflicts| > 0 {
          var owners := OwnersOf(tasks, conflicts);
          if |owners| > 0 {
            return owners;
          }
        }
      }
      if count == 0 {
        return [];
      }
      blockers := [];
      match job.cost {
        case Tiny =>
          if exclusiveCount > 0 { blockers := FilterByCost(nonBypass, false); }
        case Small => blockers := if count >= limits.maxTotalRunning then nonBypass else [];
        case Medium => blockers := if count >= limits.maxTotalRunning then nonBypass else [];
        case Large =>
          if heavyCount > 0 { blockers := FilterByCost(nonBypass, true); }
        case Exclusive => blockers := nonBypass;
      }
    }

    // -------------------------------------------------------------- start, finish, pump

    method ReleaseLocks(id: TaskId)
      requires Locked()
      modifies this, lockManager
      ensures Locked()
      ensures View() == old(View()).(locks := ReleasedForTask(old(lockManager.Table()), id), lockIds := old(taskLockIds) - {id})
    {
      lockManager.ReleaseForTask(id);
      taskLockIds := taskLockIds - {id};
    }

    /** Asks for the lock a task needs; a refusal leaves the table as it was, but for expired entries. */
    method AcquireFor(id: TaskId, at: LockKey) returns (granted: bool)
      requires Locked() && id in tasks && NeededLock(tasks[id].job) == Some(at)
      modifies this, lockManager
      ensures Locked() && (View(), granted) == WithLocks(old(View()), id)
    {
      var lock := lockManager.Acquire(at, tasks[id].job.agent, Some(id), clock);
      granted := lock.Some?;
      if granted {
        taskLockIds := taskLockIds[id := [lock.value.id]];
      }
    }

    method TakeLocks(id: TaskId) returns (granted: bool)
      requires Locked() && id in tasks
      modifies this, lockManager
      ensures Locked() && (View(), granted) == WithLocks(old(View()), id)
    {
      var job := tasks[id].job;
      granted := true;
      if job.cost == Exclusive {
        granted := AcquireFor(id, LockKey(HostScope, job.host, job.host));
      } else if job.mutates && job.cwd.Some? {
        granted := AcquireFor(id, LockKey(WorkdirScope, job.host, job.cwd.value));
      }
    }

    /** The id is indexed before the queue's capacity is checked. */
    method BackToQueue(id: TaskId)
      requires id in tasks && tasks[id].status == Queued && HostsMatch()
      modifies this
      ensures View() == Requeued(old(View()), id)
    {
      AddToIndex(id);
      AddIdEffect(old(queuedByHost), tasks[id].job.host, id);
      var _ := Enqueue(id);
    }

    method SetRunning(id: TaskId, ghost record: StartRecord)
      requires id in tasks && tasks[id].status == Queued
      modifies this
      ensures View() == Launched(old(View()), id, record)
    {
      RemoveFromIndex(id);
      tasks := tasks[id := tasks[id].(status := Running, startedAt := Some(clock))];
      AddToIndex(id);
      history := history + [record];
    }

    /** Takes the task's lock if it needs one, else puts it back in the queue; then lets its runner go. */
    method StartTask(id: TaskId) returns (started: bool)
      requires Locked() && id in tasks && tasks[id].status == Queued
      requires Good(View(), Some(id), false) && (LockFree(View(), tasks[id].job) ==> MayStart(View(), id, false))
      modifies this, lockManager
      ensures Locked() && (View(), started) == Start(old(View()), id)
      decreases WaitingOn(View(), tasks[id].job.host), 0
    {
      var task := tasks[id];
      ghost var s := View();
      LockOutcome(s, id);
      var granted := TakeLocks(id);
      if !granted {
        RefusedStartKeeps(s, id, false);
        BackToQueue(id);
        return false;
      }
      LaunchedStartKeeps(s, id, false);
      StartIsLaunch(s, id);
      SetRunning(id, RecordOf(s, id));
      if task.job.launch.ReportsAtOnce? {
        FinishTask(id, task.job.launch.code);
      }
      return true;
    }

    method FinishTask(id: TaskId, code: int)
      requires Locked() && Good(View(), None, false)
      modifies this, lockManager
      ensures Locked() && View() == Finish(old(View()), id, code)
      decreases if id in tasks then WaitingOn(View(), tasks[id].job.host) else {}, 3
    {
      if id !in tasks || tasks[id].status == Cancelled {
        return;
      }
      var host := tasks[id].job.host;
      ghost var s := View();
      RemoveFromIndex(id);
      tasks := tasks[id := tasks[id].(status := StatusFor(code), finishedAt := Some(clock), exitCode := Some(code))];
      ReleaseLocks(id);
      assert View() == Settled(s, id, StatusFor(code), Some(code));
      SettledEnds(s, id, StatusFor(code), Some(code));
      EndKeeps(s, View(), id, false);
      assert WaitingOn(View(), host) <= WaitingOn(s, host);
      PumpQueue(host);
    }

    /** Starts the head of what is left of a pass, if nothing blocks it and its lock is free. */
    method TryHead(id: TaskId, host: HostId, counts: Counts, ghost q: seq<TaskId>) returns (started: bool)
      requires Locked() && Good(View(), None, false) && ScanReady(View(), host, q) && q != [] && q[0] == id
      requires counts == CountsOf(View(), host)
      modifies this, lockManager
      ensures Locked()
      ensures started ==> (View(), true) == Scan(old(View()), host, q)
      ensures !started ==> PassedOver(old(View()), View(), host, q)
      decreases WaitingOn(View(), host), 1, 1
    {
      ghost var s := View();
      assert id in q;
      FastIsPlain(s, tasks[id].job, None);
      var blockers := FindBlockersWithPrecomputed(
        tasks[id].job, counts.nonBypass, |counts.nonBypass|, counts.heavy, counts.exclusive);
      if |blockers| > 0 {
        TailIsReady(s, host, q);
        return false;
      }
      started := StartHead(id, host, q);
    }

    /** Starts the head, which nothing blocks, if it gets its lock. */
    method StartHead(id: TaskId, host: HostId, ghost q: seq<TaskId>) returns (started: bool)
      requires Locked() && Good(View(), None, false) && ScanReady(View(), host, q) && q != [] && q[0] == id
      requires id in tasks && Blockers(View(), tasks[id].job) == []
      modifies this, lockManager
      ensures Locked()
      ensures started ==> (View(), true) == Scan(old(View()), host, q)
      ensures !started ==> PassedOver(old(View()), View(), host, q)
      decreases WaitingOn(View(), host), 1, 0
    {
      ghost var s := View();
      assert id in q;
      HeadOvertakesNone(s, host, q, false);
      started := StartTask(id);
      if started {
        tasks := tasks[id := tasks[id].(queuePosition := None)];
      } else {
        RefusedIsPassedOver(s, View(), host, q);
      }
    }

    /** Tries the task at index `i` of a pass over `queued` that began in `s`. */
    method TryNext(host: HostId, queued: seq<TaskId>, i: nat, counts: Counts, ghost s: State) returns (started: bool)
      requires Locked() && PassedTo(s, View(), host, queued, i) && i < |queued| && counts == CountsOf(s, host)
      modifies this, lockManager
      ensures Locked()
      ensures started ==> (View(), true) == Scan(s, host, queued)
      ensures !started ==> PassedTo(s, View(), host, queued, i + 1)
      decreases WaitingOn(View(), host), 1, 2
    {
      ghost var before := View();
      started := TryHead(queued[i], host, counts, queued[i..]);
      if !started {
        PassMovesOn(s, before, View(), host, queued, i);
      }
    }

    /** One pass of the pump: the running tasks are counted once, and the first task that can start is started. */
    method PumpPass(host: HostId) returns (startedAny: bool)
      requires Locked() && Good(View(), None, false)
      modifies this, lockManager
      ensures Locked() && (View(), startedAny) == Scan(old(View()), host, QueuedHere(old(View()), host))
      decreases WaitingOn(View(), host), 1, 4
    {
      ghost var s := View();
      var nonBypass := GetNonBypassRunningTasks(host);
      var queued := GetQueuedTasks(host);
      if |queued| == 0 {
        return false;
      }
      var heavy := FilterByCost(nonBypass, true);
      var exclusive := FilterByCost(nonBypass, false);
      PassBegins(s, host);
      startedAny := TryInOrder(host, queued, Counts(nonBypass, |heavy|, |exclusive|));
    }

    /** Tries the queued tasks in order, with the counts taken at the start of the pass. */
    method TryInOrder(host: HostId, queued: seq<TaskId>, counts: Counts) returns (startedAny: bool)
      requires Locked() && PassedTo(View(), View(), host, queued, 0) && counts == CountsOf(View(), host)
      modifies this, lockManager
      ensures Locked() && (View(), startedAny) == Scan(old(View()), host, queued)
      decreases WaitingOn(View(), host), 1, 3
    {
      ghost var s := View();
      var i := 0;
      while i < |queued|
        invariant 0 <= i <= |queued|
        invariant Locked() && PassedTo(s, View(), host, queued, i)
      {
        startedAny := TryNext(host, queued, i, counts, s);
        if startedAny {
          return;
        }
        i := i + 1;
      }
      PassEnds(s, View(), host, queued);
      return false;
    }

    /** Starts what can be started, one task per pass, until a pass starts nothing. */
    method PumpQueue(host: HostId)
      requires Locked() && Good(View(), None, false)
      modifies this, lockManager
      ensures Locked() && View() == Pump(old(View()), host)
      decreases WaitingOn(View(), host), 2
    {
      while true
        invariant Locked() && Good(View(), None, false)
        invariant WaitingOn(View(), host) <= old(WaitingOn(View(), host))
        invariant Pump(View(), host) == Pump(old(View()), host)
        decreases WaitingOn(View(), host)
      {
        ghost var s := View();
        SnapshotIsReady(s, host);
        ScanKeeps(s, host, QueuedHere(s, host), false);
        var startedAny := PumpPass(host);
        if !startedAny {
          break;
        }
      }
      RecomputeQueuePositions(host);
    }

    // -------------------------------------------------------------- public calls

    method StartOrReport(id: TaskId, blockers: seq<TaskId>) returns (decision: Decision)
      requires Locked() && id in tasks && tasks[id].status == Queued
      requires Good(View(), Some(id), false) && MayStart(View(), id, false)
      modifies this, lockManager
      ensures Locked() && (View(), decision) == StartOrQueue(old(View()), id, blockers)
    {
      var started := StartTask(id);
      decision := Decision(if started then RunNow else WasQueued, Some(id), blockers);
    }

    method SetStatus(id: TaskId, status: Status)
      requires id in tasks
      modifies this`tasks
      ensures View() == With(old(View()), id, old(tasks)[id].(status := status))
    {
      tasks := tasks[id := tasks[id].(status := status)];
    }

    /** Decides about a recorded request that takes part in scheduling. */
    method Decide(req: Request, ghost s: State) returns (decision: Decision)
      requires Locked() && Sound(s, false) && Adds(s, View(), req.id, req.job) && !req.job.bypass
      modifies this, lockManager
      ensures Locked() && (View(), decision) == Decided(old(View()), req)
    {
      var id := req.id;
      ghost var s1 := View();
      AddedIsGood(s, s1, id, req.job, false);
      var blockers := FindBlockers(req.job);
      if |blockers| == 0 {
        NewcomerMayStart(s, s1, req, false);
        decision := StartOrReport(id, []);
        return;
      }
      match EffectiveIfBusy(tasks, req, blockers) {
        case RunAnyway =>
          NewcomerMayStart(s, s1, req, false);
          decision := StartOrReport(id, blockers);
        case Fail =>
          SetStatus(id, Cancelled);
          decision := Decision(Rejected, None, blockers);
        case Wait =>
          SetStatus(id, Cancelled);
          decision := Decision(WaitRecommended, None, blockers);
        case Queue =>
          var queued := Enqueue(id);
          decision := if queued then Decision(WasQueued, Some(id), blockers) else Decision(Rejected, None, blockers);
      }
    }

    method Schedule(req: Request) returns (decision: Decision)
      requires Locked() && Sound(View(), false) && Fresh(View(), req.id)
      modifies this, lockManager
      ensures Locked() && Sound(View(), false)
      ensures (View(), decision) == SchedulerModel.Schedule(old(View()), req)
    {
      ScheduleKeeps(View(), req, false);
      if req.risky && !req.force {
        return Decision(NeedsConfirmation, None, []);
      }
      ghost var s := View();
      var own := req.(job := req.job.(external := false));
      tasks := tasks[own.id := NewTask(own.job)];
      if own.job.bypass {
        AddedIsGood(s, View(), own.id, own.job, false);
        NewcomerMayStart(s, View(), own, false);
        decision := StartOrReport(own.id, []);
      } else {
        decision := Decide(own, s);
      }
    }

    /** A runner's completion callback. */
    method RunnerReports(id: TaskId, code: int)
      requires Locked() && Sound(View(), false)
      modifies this, lockManager
      ensures Locked() && Sound(View(), false)
      ensures View() == Finish(old(View()), id, code)
    {
      ReportKeeps(View(), id, code, false);
      FinishTask(id, code);
    }

    /** Marks a task cancelled, before its runner is asked to stop. */
    method MarkCancelled(id: TaskId)
      requires id in tasks
      modifies this
      ensures View() == With(Unindexed(old(View()), id), id, old(tasks)[id].(status := Cancelled, finishedAt := Some(clock)))
    {
      RemoveFromIndex(id);
      tasks := tasks[id := tasks[id].(status := Cancelled, finishedAt := Some(clock))];
    }

    /** The runner refused: the task runs on, as the last of its host's index. */
    method RestoreRunning(id: TaskId)
      requires id in tasks
      modifies this
      ensures View() == Indexed(With(old(View()), id, old(tasks)[id].(status := Running, finishedAt := None)), id)
    {
      tasks := tasks[id := tasks[id].(status := Running, finishedAt := None)];
      AddToIndex(id);
    }

    /** The queue of a task that has just ended is pumped. */
    method PumpAfterEnd(id: TaskId, ghost s: State)
      requires Locked() && Good(s, None, false) && Ends(s, View(), id)
      modifies this, lockManager
      ensures Locked() && View() == Pump(old(View()), s.tasks[id].job.host)
    {
      EndKeeps(s, View(), id, false);
      PumpQueue(tasks[id].job.host);
    }

    method CancelActive(id: TaskId, accepted: bool) returns (cancelled: bool)
      requires Locked() && Good(View(), None, false)
      requires id in tasks && (tasks[id].status == Running || tasks[id].status == Queued)
      modifies this, lockManager
      ensures Locked() && (View(), cancelled) == Cancel(old(View()), id, accepted)
    {
      ghost var s := View();
      var wasRunning := tasks[id].status == Running;
      MarkCancelled(id);
      if wasRunning && !accepted {
        RestoreRunning(id);
        WithTwice(Unindexed(s, id), id, s.tasks[id].(status := Cancelled, finishedAt := Some(clock)), s.tasks[id].(finishedAt := None));
        return false;
      }
      ReleaseLocks(id);
      assert View() == Settled(s, id, Cancelled, s.tasks[id].exitCode);
      SettledEnds(s, id, Cancelled, s.tasks[id].exitCode);
      PumpAfterEnd(id, s);
      return true;
    }

    /** `accepted`: a controller stopped the stream, or the runner's cancel hook agreed. */
    method CancelTask(id: TaskId, accepted: bool) returns (cancelled: bool)
      requires Locked() && Sound(View(), false)
      modifies this, lockManager
      ensures Locked() && Sound(View(), false)
      ensures (View(), cancelled) == Cancel(old(View()), id, accepted)
    {
      CancelKeeps(View(), id, accepted, false);
      if id !in tasks || (tasks[id].status != Running && tasks[id].status != Queued) {
        return false;
      }
      cancelled := CancelActive(id, accepted);
    }

    method DequeueTask(id: TaskId) returns (removed: bool)
      requires Locked() && Sound(View(), false)
      modifies this, lockManager
      ensures Locked() && Sound(View(), false)
      ensures (View(), removed) == Dequeue(old(View()), id)
    {
      DequeueKeeps(View(), id, false);
      if id !in tasks || tasks[id].status != Queued {
        return false;
      }
      var host := tasks[id].job.host;
      SetStatus(id, Cancelled);
      // By now the status matches neither index, so this leaves the id where it is.
      RemoveFromIndex(id);
      RecomputeQueuePositions(host);
      return true;
    }

    method RegisterExternalTask(id: TaskId, job: Job)
      requires Locked() && Sound(View(), false) && Fresh(View(), id)
      modifies this, lockManager
      ensures Locked() && Sound(View(), false)
      ensures View() == RegisterExternal(old(View()), id, job)
    {
      ExternalStartKeeps(View(), id, job, false);
      tasks := tasks[id := NewTask(job.(external := true)).(status := Running, startedAt := Some(clock))];
      AddToIndex(id);
      var _ := TakeLocks(id);
    }

    method FinishExternalTask(id: TaskId, status: Status, code: int)
      requires Locked() && Sound(View(), false) && IsFinished(status)
      modifies this, lockManager
      ensures Locked() && Sound(View(), false)
      ensures View() == FinishExternal(old(View()), id, status, code)
    {
      ghost var s := View();
      ExternalEndKeeps(s, id, status, code, false);
      if id !in tasks || tasks[id].status != Running {
        return;
      }
      tasks := tasks[id := tasks[id].(status := status, finishedAt := Some(clock), exitCode := Some(code))];
      // As in DequeueTask, the new status keeps the id in the running index.
      RemoveFromIndex(id);
      ReleaseLocks(id);
      assert Ends(s, View(), id);
      PumpAfterEnd(id, s);
    }

    // -------------------------------------------------------------- time

    method AdvanceClock(now: Time)
      requires Locked() && Sound(View(), false) && Legal(View(), ClockMoves(now))
      modifies this
      ensures Locked() && Sound(View(), false)
      ensures View() == Step(old(View()), ClockMoves(now))
    {
      ClockKeeps(View(), now, false);
      clock := now;
    }

    /** The renewal timer: renews each lock on record, task by task. */
    method RenewLocks()
      requires Locked() && Sound(View(), false)
      modifies this, lockManager
      ensures Locked() && Sound(View(), false)
      ensures View() == Renew(old(View()))
    {
      RenewKeeps(View(), false);
      ghost var was := lockManager.Table();
      RenewedNone(was, clock);
      var todo := taskLockIds.Keys;
      assert LockIdsOf(taskLockIds - todo) == {};
      while todo != {}
        invariant todo <= taskLockIds.Keys
        invariant Locked() && lockManager.Table() == RenewedAll(was, LockIdsOf(taskLockIds - todo), clock)
        decreases todo
        modifies lockManager
      {
        var t :| t in todo;
        RenewTask(taskLockIds[t], was, LockIdsOf(taskLockIds - todo));
        LockIdsMore(taskLockIds, todo, t);
        todo := todo - {t};
      }
      assert taskLockIds - todo == taskLockIds;
      lastRenew := clock;
    }

    method RenewTask(lockIds: seq<LockId>, ghost was: LockTable, ghost done: set<LockId>)
      requires Locked() && Consistent(was) && lockManager.Table() == RenewedAll(was, done, clock)
      modifies lockManager
      ensures Locked() && lockManager.Table() == RenewedAll(was, done + Elements(lockIds), clock)
    {
      assert done + Elements(lockIds[..0]) == done;
      for k := 0 to |lockIds|
        invariant Locked() && lockManager.Table() == RenewedAll(was, done + Elements(lockIds[..k]), clock)
      {
        RenewedMore(was, done + Elements(lockIds[..k]), lockIds[k], clock);
        assert lockIds[..k + 1] == lockIds[..k] + [lockIds[k]];
        assert done + Elements(lockIds[..k + 1]) == done + Elements(lockIds[..k]) + {lockIds[k]};
        var _ := lockManager.Renew(lockIds[k], clock);
      }
      assert lockIds[..|lockIds|] == lockIds;
    }
  }

  lemma LockIdsMore(lockIds: map<TaskId, seq<LockId>>, todo: set<TaskId>, t: TaskId)
    requires t in todo && t in lockIds
    ensures LockIdsOf(lockIds - (todo - {t})) == LockIdsOf(lockIds - todo) + Elements(lockIds[t])
  {
    var more, less := lockIds - (todo - {t}), lockIds - todo;
    assert forall u :: u in more <==> u in less || u == t;
    forall i | i in LockIdsOf(less) + Elements(lockIds[t]) ensures i in LockIdsOf(more) {
      if i in lockIds[t] {
        assert t in more && i in more[t];
      } else {
        var u :| u in less && i in less[u];
        assert u in more && i in more[u];
      }
    }
    forall i | i in LockIdsOf(more) ensures i in LockIdsOf(less) + Elements(lockIds[t]) {
      var u :| u in more && i in more[u];
      if u != t {
        assert u in less && i in less[u];
      }
    }
  }

  lemma RenewedNone(lt: LockTable, now: Time)
    ensures RenewedAll(lt, {}, now) == lt
  {
    assert RenewedAll(lt, {}, now).locks == lt.locks;
  }

  /** Renewing one more lock by its id. */
  lemma RenewedMore(lt: LockTable, ids: set<LockId>, id: LockId, now: Time)
    requires Consistent(lt)
    ensures Renewed(RenewedAll(lt, ids, now), id, now, DEFAULT_TTL) == RenewedAll(lt, ids + {id}, now)
  {
    var some := RenewedAll(lt, ids, now);
    assert Renewed(some, id, now, DEFAULT_TTL).locks == RenewedAll(lt, ids + {id}, now).locks;
  }

  lemma WithTwice(s: State, id: TaskId, a: Task, b: Task)
    ensures With(With(s, id, a), id, b) == With(s, id, b)
  {
    assert s.tasks[id := a][id := b] == s.tasks[id := b];
  }

  /** What a pass of the pump counts before it begins: a host's competitors, and the heavy and exclusive ones of them. */
  datatype Counts = Counts(nonBypass: seq<TaskId>, heavy: nat, exclusive: nat)

  ghost function CountsOf(s: State, host: HostId): Counts {
    var nonBypass := Picked(Ids(s.running, host), Competing(s));
    Counts(nonBypass, |Picked(nonBypass, CompetingHeavy(s))|, |Picked(nonBypass, CompetingExclusive(s))|)
  }

  /** The head of a ready snapshot was not started: the rest is ready, and the pass goes on from it. */
  ghost predicate PassedOver(s: State, r: State, host: HostId, q: seq<TaskId>) {
    && q != [] && ScanReady(s, host, q)
    && Good(r, None, false) && ScanReady(r, host, q[1..]) && CountsOf(r, host) == CountsOf(s, host)
    && WaitingOn(r, host) <= WaitingOn(s, host)
    && Scan(r, host, q[1..]) == Scan(s, host, q)
  }

  /** A pass over snapshot `q` that began in `s` has come to index `i` without a start. */
  ghost predicate PassedTo(s: State, r: State, host: HostId, q: seq<TaskId>, i: nat) {
    && i <= |q| && ScanReady(s, host, q)
    && Good(r, None, false) && ScanReady(r, host, q[i..]) && CountsOf(r, host) == CountsOf(s, host)
    && (WaitingOn(r, host) == WaitingOn(s, host) || WaitingOn(r, host) < WaitingOn(s, host))
    && Scan(r, host, q[i..]) == Scan(s, host, q)
  }

  lemma PassBegins(s: State, host: HostId)
    requires Good(s, None, false)
    ensures PassedTo(s, s, host, QueuedHere(s, host), 0)
  {
    SnapshotIsReady(s, host);
    assert QueuedHere(s, host)[0..] == QueuedHere(s, host);
  }

  lemma PassEnds(s: State, r: State, host: HostId, q: seq<TaskId>)
    requires PassedTo(s, r, host, q, |q|)
    ensures Scan(s, host, q) == (r, false)
  {
  }

  lemma SubsetTrans<T>(a: set<T>, b: set<T>, c: set<T>)
    requires a <= b && b <= c
    ensures a == c || a < c
  {
  }

  lemma PassMovesOn(s: State, before: State, r: State, host: HostId, q: seq<TaskId>, i: nat)
    requires PassedTo(s, before, host, q, i) && i < |q| && PassedOver(before, r, host, q[i..])
    ensures PassedTo(s, r, host, q, i + 1)
  {
    SubsetTrans(WaitingOn(r, host), WaitingOn(before, host), WaitingOn(s, host));
    assert q[i..][1..] == q[i + 1..];
  }

  lemma ScanGoesOn(s: State, r: State, host: HostId, q: seq<TaskId>)
    requires ScanReady(s, host, q) && q != [] && q[0] in s.tasks && s.tasks[q[0]].status == Queued
    requires Blockers(s, s.tasks[q[0]].job) == [] && (r, false) == Start(s, q[0])
    requires forall id <- q[1..] :: id in WaitingOn(r, host)
    ensures Scan(r, host, q[1..]) == Scan(s, host, q)
  {
  }

  /** A refused task leaves the running tasks alone, and the rest of the snapshot good. */
  lemma RefusedIsPassedOver(s: State, r: State, host: HostId, q: seq<TaskId>)
    requires Good(s, None, false) && ScanReady(s, host, q) && q != []
    requires q[0] in s.tasks && s.tasks[q[0]].status == Queued && s.tasks[q[0]].job.host == host
    requires Blockers(s, s.tasks[q[0]].job) == [] && (r, false) == Start(s, q[0])
    ensures PassedOver(s, r, host, q)
  {
    assert Core(s, Some(q[0]));
    HeadOvertakesNone(s, host, q, false);
    StartKeeps(s, q[0], false);
    RefusalKeeps(s, host, q, false);
    ScanGoesOn(s, r, host, q);
  }
}
