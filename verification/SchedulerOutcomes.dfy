/** What one call does to whom: frames, final statuses, and when the returned decision is the truth. */
module SchedulerOutcomes {
  import opened Base
  import opened LockTables
  import opened SchedulerModel
  import opened SchedulerInvariants
  import opened SchedulerRuns

  // ---------------------------------------------------------------- only waiting tasks move

  /** Only tasks waiting on the host may have changed. */
  ghost predicate OnlyWaitersMoved(s: State, r: State, host: HostId) {
    && r.tasks.Keys == s.tasks.Keys
    && forall u <- s.tasks :: u !in WaitingOn(s, host) ==> r.tasks[u] == s.tasks[u]
  }

  ghost predicate OthersUntouched(s: State, r: State, id: TaskId, host: HostId) {
    && r.tasks.Keys == s.tasks.Keys
    && forall u <- s.tasks :: u != id && u !in WaitingOn(s, host) ==> r.tasks[u] == s.tasks[u]
  }

  ghost predicate StartedAs(s: State, t: Task, job: Job) {
    && t.job == job && t.startedAt == Some(s.now)
    && (match job.launch
        case StaysRunning => t.status == Running
        case ReportsAtOnce(code) =>
          t.status == (if code == 0 then Completed else Failed) && t.exitCode == Some(code) && t.finishedAt == Some(s.now))
  }

  lemma RequeueFrame(s: State, id: TaskId)
    requires id in s.tasks && s.tasks[id].status == Queued
    ensures OthersUntouched(s, Requeued(s, id), id, s.tasks[id].job.host)
  {
    RequeueKeepsWaiting(s, id);
    EnqueueEffect(Indexed(s, id), id);
  }

  lemma LaunchFrame(s: State, s1: State, id: TaskId, record: StartRecord)
    requires id in s.tasks && s.tasks[id].status == Queued && s1 == s.(locks := s1.locks, lockIds := s1.lockIds)
    ensures var s2 := Launched(s1, id, record); var t := s.tasks[id];
            && s2.tasks == s.tasks[id := t.(status := Running, startedAt := Some(s.now))]
            && s2.now == s.now
            && WaitingOn(s2, t.job.host) == WaitingOn(s, t.job.host) - {id}
  {
  }

  lemma AfterLaunchFrame(s: State, id: TaskId)
    requires id in s.tasks && s.tasks[id].status == Queued && WithLocks(s, id).1
    ensures var s2 := AfterLaunch(s, id); var t := s.tasks[id];
            && s2.tasks == s.tasks[id := t.(status := Running, startedAt := Some(s.now))]
            && s2.now == s.now
            && WaitingOn(s2, t.job.host) < WaitingOn(s, t.job.host)
  {
    LaunchFrame(s, WithLocks(s, id).0, id, RecordOf(s, id));
    assert id in WaitingOn(s, s.tasks[id].job.host);
  }

  /** What a finish touches after a launch is what it may touch before it. */
  lemma FrameThroughLaunch(s: State, s2: State, r: State, id: TaskId)
    requires id in s.tasks && s2.tasks == s.tasks[id := s.tasks[id].(status := Running, startedAt := Some(s.now))]
    requires WaitingOn(s2, s.tasks[id].job.host) <= WaitingOn(s, s.tasks[id].job.host)
    requires OthersUntouched(s2, r, id, s.tasks[id].job.host)
    ensures OthersUntouched(s, r, id, s.tasks[id].job.host)
  {
  }

  /** Starting a task settles its own record and, if its runner reports at once, moves only waiting tasks beyond it. */
  lemma StartFrame(s: State, id: TaskId)
    requires id in s.tasks && s.tasks[id].status == Queued
    ensures var (r, started) := Start(s, id); var t := s.tasks[id];
            && OthersUntouched(s, r, id, t.job.host)
            && (started ==> StartedAs(s, r.tasks[id], t.job))
    decreases WaitingOn(s, s.tasks[id].job.host), 0, 0
  {
    if WithLocks(s, id).1 {
      var s2, job := AfterLaunch(s, id), s.tasks[id].job;
      StartIsLaunch(s, id);
      AfterLaunchFrame(s, id);
      if job.launch.ReportsAtOnce? {
        FinishFrame(s2, id, job.launch.code);
      }
      FrameThroughLaunch(s, s2, Start(s, id).0, id);
    } else {
      StartIsRefused(s, id);
      RequeueFrame(WithLocks(s, id).0, id);
    }
  }

  lemma StartIsRefused(s: State, id: TaskId)
    requires id in s.tasks && s.tasks[id].status == Queued && !WithLocks(s, id).1
    ensures var s1 := WithLocks(s, id).0;
            s1 == s.(locks := s1.locks, lockIds := s1.lockIds) && Start(s, id) == (Requeued(s1, id), false)
  {
  }

  lemma LaunchedWaiting(s: State, id: TaskId)
    requires id in s.tasks && s.tasks[id].status == Queued
    ensures id in WaitingOn(s, s.tasks[id].job.host)
  {
  }

  lemma SettledFrame(s: State, id: TaskId, status: Status, code: Option<int>)
    requires id in s.tasks && IsFinished(status)
    ensures var s1 := Settled(s, id, status, code); var host := s.tasks[id].job.host;
            && s1.tasks == s.tasks[id := s.tasks[id].(status := status, finishedAt := Some(s.now), exitCode := code)]
            && WaitingOn(s1, host) <= WaitingOn(s, host) && id !in WaitingOn(s1, host)
  {
  }

  /**
   A report settles its task, as completed exactly if the exit code is zero, and, beyond it, moves only tasks that
   waited on its host.
   */
  lemma FinishFrame(s: State, id: TaskId, code: int)
    requires id in s.tasks && s.tasks[id].status != Cancelled
    ensures var r := Finish(s, id, code);
            && OthersUntouched(s, r, id, s.tasks[id].job.host)
            && r.tasks[id] == s.tasks[id].(
                 status := if code == 0 then Completed else Failed, finishedAt := Some(s.now), exitCode := Some(code))
    decreases WaitingOn(s, s.tasks[id].job.host), 3, 0
  {
    SettledFrame(s, id, StatusFor(code), Some(code));
    PumpFrame(Settled(s, id, StatusFor(code), Some(code)), s.tasks[id].job.host);
  }

  lemma ScanFrame(s: State, host: HostId, q: seq<TaskId>)
    requires (forall id <- q :: id in WaitingOn(s, host)) && Distinct(q)
    ensures OnlyWaitersMoved(s, Scan(s, host, q).0, host)
    decreases WaitingOn(s, host), 1, |q|
  {
    if q != [] {
      assert q[0] in q;
      if Blockers(s, s.tasks[q[0]].job) != [] {
        ScanFrame(s, host, q[1..]);
      } else {
        StartFrame(s, q[0]);
        var (s1, started) := Start(s, q[0]);
        if !started {
          assert forall u <- q[1..] :: u in WaitingOn(s, host) - {q[0]};
          ScanFrame(s1, host, q[1..]);
        }
      }
    }
  }

  /** Pumping a queue changes nothing but the tasks that waited in it. */
  lemma PumpFrame(s: State, host: HostId)
    ensures OnlyWaitersMoved(s, Pump(s, host), host)
    decreases WaitingOn(s, host), 2, 0
  {
    ScanFrame(s, host, QueuedHere(s, host));
    var (s1, started) := Scan(s, host, QueuedHere(s, host));
    if started {
      PumpFrame(s1, host);
    } else {
      RenumberEffect(s1, host);
    }
  }

  // ---------------------------------------------------------------- cancellation is final

  /** Whatever happens next, a cancelled task's record stays as it is until it is evicted. */
  lemma CancelledStays(s: State, e: Event, id: TaskId)
    requires Legal(s, e) && id in s.tasks && s.tasks[id].status == Cancelled
    ensures id in Step(s, e).tasks ==> Step(s, e).tasks[id] == s.tasks[id]
  {
    match e
    case ScheduleCall(req) => ScheduleSparesOthers(s, req, id);
    case RunnerReport(other, code) =>
      if other in s.tasks && s.tasks[other].status != Cancelled { FinishFrame(s, other, code); }
    case CancelCall(other, accepted) => CancelSparesOthers(s, other, accepted, id);
    case DequeueCall(other) =>
      if other in s.tasks && s.tasks[other].status == Queued {
        RenumberEffect(With(s, other, s.tasks[other].(status := Cancelled)), s.tasks[other].job.host);
      }
    case ExternalStart(_, _) =>
    case ExternalEnd(other, status, code) => ExternalEndSparesOthers(s, other, status, code, id);
    case RenewTick =>
    case ClockMoves(_) =>
    case Evict(_) =>
  }

  /** The three things that can become of a request that takes part in scheduling. */
  ghost predicate DecidedAs(s1: State, r: State, id: TaskId)
    requires id in s1.tasks && s1.tasks[id].status == Queued
  {
    || r == Start(s1, id).0
    || r == Enqueued(s1, id).0
    || r == With(s1, id, s1.tasks[id].(status := Cancelled))
  }

  lemma DecidedCases(s1: State, own: Request)
    requires own.id in s1.tasks && s1.tasks[own.id].status == Queued
    ensures DecidedAs(s1, Decided(s1, own).0, own.id)
  {
  }

  lemma DecidedSparesOthers(s1: State, r: State, newcomer: TaskId, id: TaskId)
    requires newcomer in s1.tasks && s1.tasks[newcomer].status == Queued && DecidedAs(s1, r, newcomer)
    requires id in s1.tasks && s1.tasks[id].status != Queued
    ensures id in r.tasks && r.tasks[id] == s1.tasks[id]
  {
    StartSparesOthers(s1, newcomer, id);
    EnqueueSparesOthers(s1, newcomer, id);
  }

  lemma StartSparesOthers(s1: State, started: TaskId, id: TaskId)
    requires started in s1.tasks && s1.tasks[started].status == Queued
    requires id in s1.tasks && s1.tasks[id].status != Queued
    ensures id in Start(s1, started).0.tasks && Start(s1, started).0.tasks[id] == s1.tasks[id]
  {
    StartFrame(s1, started);
  }

  lemma EnqueueSparesOthers(s1: State, queued: TaskId, id: TaskId)
    requires queued in s1.tasks && s1.tasks[queued].status == Queued
    requires id in s1.tasks && s1.tasks[id].status != Queued
    ensures id in Enqueued(s1, queued).0.tasks && Enqueued(s1, queued).0.tasks[id] == s1.tasks[id]
  {
    EnqueueEffect(s1, queued);
  }

  lemma ScheduleSparesOthers(s: State, req: Request, id: TaskId)
    requires Fresh(s, req.id) && id in s.tasks && s.tasks[id].status != Queued
    ensures id in Schedule(s, req).0.tasks && Schedule(s, req).0.tasks[id] == s.tasks[id]
  {
    var own := req.(job := req.job.(external := false));
    var s1 := With(s, own.id, NewTask(own.job));
    StartSparesOthers(s1, own.id, id);
    DecidedCases(s1, own);
    DecidedSparesOthers(s1, Decided(s1, own).0, own.id, id);
  }

  lemma CancelSparesOthers(s: State, other: TaskId, accepted: bool, id: TaskId)
    requires id in s.tasks && s.tasks[id].status == Cancelled
    ensures Cancel(s, other, accepted).0.tasks[id] == s.tasks[id]
  {
    if other in s.tasks && (s.tasks[other].status == Running || s.tasks[other].status == Queued) {
      if s.tasks[other].status == Running && !accepted {
        RefusedCancelSpares(s, other);
      } else {
        CancelledPumpSpares(s, other, id);
      }
    }
  }

  lemma RefusedCancelSpares(s: State, other: TaskId)
    requires other in s.tasks && s.tasks[other].status == Running
    ensures Cancel(s, other, false).0.tasks == s.tasks[other := s.tasks[other].(finishedAt := None)]
  {
  }

  lemma CancelledPumpSpares(s: State, other: TaskId, id: TaskId)
    requires other in s.tasks && id in s.tasks && id != other && s.tasks[id].status == Cancelled
    ensures Pump(Settled(s, other, Cancelled, s.tasks[other].exitCode), s.tasks[other].job.host).tasks[id] == s.tasks[id]
  {
    SettledFrame(s, other, Cancelled, s.tasks[other].exitCode);
    PumpFrame(Settled(s, other, Cancelled, s.tasks[other].exitCode), s.tasks[other].job.host);
  }

  lemma ExternalEndSparesOthers(s: State, other: TaskId, status: Status, code: int, id: TaskId)
    requires id in s.tasks && s.tasks[id].status == Cancelled && IsFinished(status)
    ensures FinishExternal(s, other, status, code).tasks[id] == s.tasks[id]
  {
    if other in s.tasks && s.tasks[other].status == Running {
      PumpFrame(With(s, other, s.tasks[other].(status := status, finishedAt := Some(s.now), exitCode := Some(code)))
                  .(locks := ReleasedForTask(s.locks, other), lockIds := s.lockIds - {other}), s.tasks[other].job.host);
    }
  }

  /** An accepted cancellation is final: no later event of any run revives the task or changes its record. */
  lemma {:induction false} CancelledForGood(s: State, es: seq<Event>, id: TaskId)
    requires LegalRun(s, es) && id in s.tasks && s.tasks[id].status == Cancelled
    requires forall e <- es :: e.Evict? ==> id !in e.ids
    ensures id in Run(s, es).tasks && Run(s, es).tasks[id] == s.tasks[id]
    decreases |es|
  {
    if es != [] {
      assert es[0] in es;
      CancelledStays(s, es[0], id);
      StepKeepsTasks(s, es[0], id);
      CancelledForGood(Step(s, es[0]), es[1..], id);
    }
  }

  lemma StepKeepsTasks(s: State, e: Event, id: TaskId)
    requires Legal(s, e) && id in s.tasks && (e.Evict? ==> id !in e.ids)
    ensures id in Step(s, e).tasks
  {
    if e.ScheduleCall? {
      ScheduleKeepsTasks(s, e.req, id);
    } else if e.DequeueCall? && e.id in s.tasks {
      RenumberEffect(With(s, e.id, s.tasks[e.id].(status := Cancelled)), s.tasks[e.id].job.host);
    }
  }

  lemma DecidedKeepsTasks(s1: State, r: State, newcomer: TaskId)
    requires newcomer in s1.tasks && s1.tasks[newcomer].status == Queued && DecidedAs(s1, r, newcomer)
    ensures r.tasks.Keys == s1.tasks.Keys
  {
    EnqueueEffect(s1, newcomer);
  }

  lemma ScheduleKeepsTasks(s: State, req: Request, id: TaskId)
    requires Fresh(s, req.id) && id in s.tasks
    ensures id in Schedule(s, req).0.tasks
  {
    var own := req.(job := req.job.(external := false));
    var s1 := With(s, own.id, NewTask(own.job));
    DecidedCases(s1, own);
    DecidedKeepsTasks(s1, Decided(s1, own).0, own.id);
  }

  // ---------------------------------------------------------------- decisions

  /** A request takes the starting route: it bypasses, is unblocked, or runs in spite of its blockers. */
  predicate GoesToStart(s1: State, own: Request) {
    || own.job.bypass
    || Blockers(s1, own.job) == []
    || EffectiveIfBusy(s1.tasks, own, Blockers(s1, own.job)) == RunAnyway
  }

  /** A request on the starting route either runs, or was refused its lock and went to the queue. */
  lemma StartTells(s1: State, id: TaskId, blockers: seq<TaskId>)
    requires Core(s1, Some(id)) && id in s1.tasks && s1.tasks[id].status == Queued
    requires id !in Ids(s1.queued, s1.tasks[id].job.host)
    ensures var (r, d) := StartOrQueue(s1, id, blockers); var job := s1.tasks[id].job;
            && id in r.tasks
            && (d.action == RunNow || d.action == WasQueued)
            && (d.action == RunNow <==> LockFree(s1, job))
            && (d.action == RunNow ==> StartedAs(s1, r.tasks[id], job))
            && (d.action == WasQueued ==>
                  r.tasks[id].status == if |Ids(s1.queued, job.host)| + 1 < s1.limits.maxQueueSize then Queued else Cancelled)
  {
    LockOutcome(s1, id);
    StartFrame(s1, id);
    if !WithLocks(s1, id).1 {
      RefusedWaits(s1, id);
    }
  }

  lemma EnqueueTells(s1: State, id: TaskId)
    requires id in s1.tasks && s1.tasks[id].status == Queued
    ensures var (r, ok) := Enqueued(s1, id);
            && (ok <==> |Ids(s1.queued, s1.tasks[id].job.host)| < s1.limits.maxQueueSize)
            && id in r.tasks && r.tasks[id].status == if ok then Queued else Cancelled
  {
    EnqueueEffect(s1, id);
  }

  /** A blocked request that may queue is rejected exactly when the index, stale ids included, is full. */
  lemma DecidedTells(s1: State, own: Request)
    requires Core(s1, Some(own.id)) && own.id in s1.tasks && s1.tasks[own.id] == NewTask(own.job)
    requires !GoesToStart(s1, own)
    ensures var (r, d) := Decided(s1, own);
            && own.id in r.tasks
            && d.action in {WasQueued, Rejected, WaitRecommended}
            && (r.tasks[own.id].status == if d.action == WasQueued then Queued else Cancelled)
            && (EffectiveIfBusy(s1.tasks, own, Blockers(s1, own.job)) == Queue ==>
                  (d.action == Rejected <==> |Ids(s1.queued, own.job.host)| >= s1.limits.maxQueueSize))
  {
    EnqueueTells(s1, own.id);
  }

  /**
   What the returned action says of the task. "Run now" is always true. "Queued" is
   true exactly when the index had room: one place for a task queued behind its
   blockers, but two for a task that was refused its lock, which is indexed before
   the room is checked; without it the caller is told "queued" of a cancelled task.
   */
  lemma DecisionTells(s: State, req: Request)
    requires Sound(s, false) && Fresh(s, req.id)
    ensures var (r, d) := Schedule(s, req);
            var own := req.(job := req.job.(external := false));
            var s1 := With(s, own.id, NewTask(own.job));
            if d.action == NeedsConfirmation then r == s
            else
              && own.id in r.tasks
              && (d.action == RunNow ==> StartedAs(s, r.tasks[own.id], own.job))
              && (d.action != RunNow ==> r.tasks[own.id].status in {Queued, Cancelled})
              && (d.action != RunNow ==>
                    (r.tasks[own.id].status == Queued <==>
                     && d.action == WasQueued
                     && (GoesToStart(s1, own) ==> |Ids(s.queued, own.job.host)| + 1 < s.limits.maxQueueSize)))
  {
    if !(req.risky && !req.force) {
      var own := req.(job := req.job.(external := false));
      var s1 := With(s, own.id, NewTask(own.job));
      AddedIsGood(s, s1, own.id, own.job, false);
      if own.job.bypass {
        StartTells(s1, own.id, []);
      } else {
        DecidedTellsAll(s1, own);
      }
    }
  }

  /** Both routes of a request that takes part in scheduling. */
  lemma DecidedTellsAll(s1: State, own: Request)
    requires Core(s1, Some(own.id)) && own.id in s1.tasks && s1.tasks[own.id] == NewTask(own.job)
    requires own.id !in Ids(s1.queued, own.job.host) && !own.job.bypass
    ensures var (r, d) := Decided(s1, own);
            && d.action != NeedsConfirmation && own.id in r.tasks
            && (d.action == RunNow ==> StartedAs(s1, r.tasks[own.id], own.job))
            && (d.action != RunNow ==> r.tasks[own.id].status in {Queued, Cancelled})
            && (d.action != RunNow ==>
                  (r.tasks[own.id].status == Queued <==>
                   && d.action == WasQueued
                   && (GoesToStart(s1, own) ==> |Ids(s1.queued, own.job.host)| + 1 < s1.limits.maxQueueSize)))
  {
    if GoesToStart(s1, own) {
      StartTells(s1, own.id, Blockers(s1, own.job));
    } else {
      DecidedTells(s1, own);
    }
  }

  lemma DecidedRunsIff(s1: State, own: Request)
    requires Core(s1, Some(own.id)) && own.id in s1.tasks && s1.tasks[own.id] == NewTask(own.job)
    requires own.id !in Ids(s1.queued, own.job.host) && !own.job.bypass
    ensures Decided(s1, own).1.action == RunNow <==> GoesToStart(s1, own) && LockFree(s1, own.job)
  {
    if GoesToStart(s1, own) {
      StartTells(s1, own.id, Blockers(s1, own.job));
    } else {
      DecidedTells(s1, own);
    }
  }

  /** A request is told run-now exactly on the starting route with its lock free. */
  lemma RunsNowIff(s: State, req: Request)
    requires Sound(s, false) && Fresh(s, req.id) && (req.risky ==> req.force)
    ensures var own := req.(job := req.job.(external := false)); var s1 := With(s, own.id, NewTask(own.job));
            Schedule(s, req).1.action == RunNow <==> GoesToStart(s1, own) && LockFree(s1, own.job)
  {
    var own := req.(job := req.job.(external := false));
    var s1 := With(s, own.id, NewTask(own.job));
    AddedIsGood(s, s1, own.id, own.job, false);
    if own.job.bypass {
      StartTells(s1, own.id, []);
    } else {
      DecidedRunsIff(s1, own);
    }
  }

  /** A small or medium request on a host below its limit on running tasks. */
  predicate IsLightBelow(s: State, req: Request) {
    && (req.job.cost == Small || req.job.cost == Medium)
    && |Picked(Ids(s.running, req.job.host), Competing(s))| < s.limits.maxTotalRunning
  }

  /**
   A heavy request that asks to run anyway, and whose check looks no further than the owner of the lock on its
   working directory, because nobody holds the host lock.
   */
  predicate LooksNoFurther(s: State, req: Request) {
    && IsHeavy(req.job.cost) && req.ifBusy == Some(RunAnyway) && req.job.cwd.Some?
    && LockKey(WorkdirScope, req.job.host, req.job.cwd.value) in s.locks.locks
    && LockKey(HostScope, req.job.host, req.job.host) !in s.locks.locks
  }

  /**
   Beside a competing exclusive task, a request that takes part in scheduling runs exactly if its lock is free and it
   is light and the host below its limit, or it is heavy, asks to run anyway, and is blocked by a lock on its working
   directory alone. The second is impossible if the scheduler started the exclusive task.
   */
  lemma RunsBesideExclusiveIff(s: State, req: Request, x: TaskId)
    requires Sound(s, false) && Fresh(s, req.id) && (req.risky ==> req.force) && !req.job.bypass
    requires x in CompetingExclusive(s) && s.tasks[x].job.host == req.job.host
    ensures Schedule(s, req).1.action == RunNow <==>
            LockFree(s, req.job) && (IsLightBelow(s, req) || LooksNoFurther(s, req))
    ensures !s.tasks[x].job.external ==> !LooksNoFurther(s, req)
  {
    var own := req.(job := req.job.(external := false));
    var s1 := With(s, own.id, NewTask(own.job));
    AddedIsGood(s, s1, own.id, own.job, false);
    GuardsStay(s, s1, req, own);
    assert x in s.tasks && x in CompetingExclusive(s1) && s1.tasks[x] == s.tasks[x];
    GoesBesideExclusiveIff(s1, own, x);
    RunsNowIff(s, req);
    if !s.tasks[x].job.external {
      OwnHoldsHost(s, req, x);
    }
  }

  /** The record of the newcomer changes none of the guards. */
  lemma GuardsStay(s: State, s1: State, req: Request, own: Request)
    requires own == req.(job := req.job.(external := false)) && s1 == With(s, own.id, NewTask(own.job))
    requires Competing(s1) == Competing(s)
    ensures IsLightBelow(s1, own) == IsLightBelow(s, req) && LooksNoFurther(s1, own) == LooksNoFurther(s, req)
    ensures LockFree(s1, own.job) == LockFree(s, req.job)
  {
  }

  lemma OwnHoldsHost(s: State, req: Request, x: TaskId)
    requires HoldersHold(s) && x in CompetingExclusive(s) && s.tasks[x].job.host == req.job.host && !s.tasks[x].job.external
    ensures !LooksNoFurther(s, req)
  {
    assert Holds(s, x, LockKey(HostScope, req.job.host, req.job.host));
  }

  lemma GoesBesideExclusiveIff(s: State, own: Request, x: TaskId)
    requires Core(s, Some(own.id)) && !own.job.bypass
    requires x in CompetingExclusive(s) && s.tasks[x].job.host == own.job.host
    ensures GoesToStart(s, own) <==> IsLightBelow(s, own) || LooksNoFurther(s, own)
  {
    assert x in Ids(s.running, own.job.host);
    if IsHeavy(own.job.cost) {
      HeavyGoesIff(s, own, x);
    } else if own.job.cost == Tiny {
      TinyIsBlocked(s, own, x);
    } else if Blockers(s, own.job) != [] {
      SmallNeverRunsAnyway(s, own, x);
    }
  }

  lemma TinyIsBlocked(s: State, own: Request, x: TaskId)
    requires !own.job.bypass && own.job.cost == Tiny && x in CompetingExclusive(s) && x in Ids(s.running, own.job.host)
    ensures !GoesToStart(s, own)
  {
    assert x in Blockers(s, own.job);
    TinyNeverRunsAnyway(s, own);
  }

  lemma HeavyGoesIff(s: State, own: Request, x: TaskId)
    requires Core(s, Some(own.id)) && !own.job.bypass && IsHeavy(own.job.cost)
    requires x in CompetingExclusive(s) && x in Ids(s.running, own.job.host)
    ensures GoesToStart(s, own) <==> LooksNoFurther(s, own)
  {
    var at := LockKey(HostScope, own.job.host, own.job.host);
    if LockConflicts(s.locks, own.job) == [] {
      assert x in Blockers(s, own.job);
    } else if at in s.locks.locks {
      var o := s.locks.locks[at].ownerTask.value;
      HostOwnerIsListed(s, own.job, o);
      assert o in Blockers(s, own.job);
    } else {
      DirectoryOwnerAlone(s, own.job);
    }
  }

  /** The lock on a directory alone is in the way: its owner is the one blocker found, and is not exclusive. */
  lemma DirectoryOwnerAlone(s: State, j: Job)
    requires LocksOwned(s) && Ids(s.running, j.host) != [] && LockConflicts(s.locks, j) != []
    requires LockKey(HostScope, j.host, j.host) !in s.locks.locks
    ensures Blockers(s, j) != [] && forall b <- Blockers(s, j) :: b in s.tasks && s.tasks[b].job.cost != Exclusive
  {
    var l := s.locks.locks[LockKey(WorkdirScope, j.host, j.cwd.value)];
    assert LockConflicts(s.locks, j) == [l] && [l][1..] == [];
    assert OwnersOf(s.tasks, [l]) == [l.ownerTask.value] + OwnersOf(s.tasks, []);
  }

  /**
   Whatever task is refused its lock, fresh or waiting: it is waiting afterwards exactly if the index, its own id
   included, has a place left, and then it is queued anew at the present time; otherwise it is cancelled.
   */
  lemma RefusedWaits(s: State, id: TaskId)
    requires id in s.tasks && s.tasks[id].status == Queued && !WithLocks(s, id).1
    ensures var (r, started) := Start(s, id);
            && !started && id in r.tasks && r.queued == Indexed(s, id).queued
            && (r.tasks[id].status == Queued <==>
                |Ids(Indexed(s, id).queued, s.tasks[id].job.host)| < s.limits.maxQueueSize)
            && (r.tasks[id].status == Queued ==> r.tasks[id].queuedAt == Some(s.now))
            && (r.tasks[id].status != Queued ==> r.tasks[id].status == Cancelled)
  {
    StartIsRefused(s, id);
    RequeuedTells(WithLocks(s, id).0, id);
  }

  lemma RequeuedTells(s: State, id: TaskId)
    requires id in s.tasks && s.tasks[id].status == Queued
    ensures var r := Requeued(s, id); var room := |Ids(Indexed(s, id).queued, s.tasks[id].job.host)| < s.limits.maxQueueSize;
            && id in r.tasks && r.queued == Indexed(s, id).queued
            && r.tasks[id].status == (if room then Queued else Cancelled)
            && (room ==> r.tasks[id].queuedAt == Some(s.now))
  {
    AddIdTwice(s.queued, s.tasks[id].job.host, id);
    EnqueueEffect(Indexed(s, id), id);
  }

  lemma AddIdTwice(ix: Index, host: HostId, id: TaskId)
    ensures AddId(AddId(ix, host, id), host, id) == AddId(ix, host, id)
  {
  }

  /**
   Removing a task from the queue does not free its place: the index keeps the id,
   and the index is what admission counts.
   */
  lemma DequeueFreesNoPlace(s: State, id: TaskId)
    requires id in s.tasks && s.tasks[id].status == Queued
    ensures var (r, removed) := Dequeue(s, id); var host := s.tasks[id].job.host;
            && removed && r.queued == s.queued
            && WaitingOn(r, host) == WaitingOn(s, host) - {id}
  {
    var host := s.tasks[id].job.host;
    RenumberEffect(With(s, id, s.tasks[id].(status := Cancelled)), host);
  }
}
