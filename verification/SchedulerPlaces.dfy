/** Who keeps a place in the queue, who loses it, and what uses places up. */
module SchedulerPlaces {
  import opened Base
  import opened LockTables
  import opened SchedulerModel
  import opened SchedulerInvariants
  import opened SchedulerRuns
  import opened SchedulerOutcomes

  // ---------------------------------------------------------------- stale ids and the history only accumulate

  /** An id that the queue index of a host lists although no such task is waiting. */
  ghost predicate LeftBehind(s: State, host: HostId, id: TaskId) {
    id in Ids(s.queued, host) && (id in s.tasks ==> s.tasks[id].status != Queued)
  }

  ghost predicate Accumulates(s: State, r: State) {
    s.history <= r.history && forall h, id :: LeftBehind(s, h, id) ==> LeftBehind(r, h, id)
  }

  lemma AccumulatesTrans(a: State, b: State, c: State)
    requires Accumulates(a, b) && Accumulates(b, c)
    ensures Accumulates(a, c)
  {
  }

  lemma EnqueueAccumulates(s: State, id: TaskId)
    requires id in s.tasks && s.tasks[id].status == Queued
    ensures Accumulates(s, Enqueued(s, id).0) && Enqueued(s, id).0.history == s.history
  {
    EnqueueEffect(s, id);
    AddIdEffect(s.queued, s.tasks[id].job.host, id);
  }

  lemma RequeueAccumulates(s: State, id: TaskId)
    requires id in s.tasks && s.tasks[id].status == Queued
    ensures Accumulates(s, Requeued(s, id)) && Requeued(s, id).history == s.history
  {
    AddIdEffect(s.queued, s.tasks[id].job.host, id);
    EnqueueAccumulates(Indexed(s, id), id);
  }

  lemma LaunchAccumulates(s: State, id: TaskId, record: StartRecord)
    requires id in s.tasks && s.tasks[id].status == Queued
    ensures Accumulates(s, Launched(s, id, record)) && Launched(s, id, record).history == s.history + [record]
  {
    DropIdEffect(s.queued, s.tasks[id].job.host, id);
  }

  /** Taking locks touches neither index nor records. */
  lemma LocksAccumulate(s: State, s1: State, r: State)
    requires s1 == s.(locks := s1.locks, lockIds := s1.lockIds) && Accumulates(s1, r)
    ensures Accumulates(s, r)
  {
    forall h, id | LeftBehind(s, h, id) ensures LeftBehind(r, h, id) {
      assert LeftBehind(s1, h, id);
    }
  }

  lemma SettleAccumulates(s: State, id: TaskId, status: Status, code: Option<int>)
    requires id in s.tasks && IsFinished(status)
    ensures Accumulates(s, Settled(s, id, status, code)) && Settled(s, id, status, code).history == s.history
  {
    DropIdEffect(s.queued, s.tasks[id].job.host, id);
  }

  lemma RenumberAccumulates(s: State, host: HostId)
    ensures Accumulates(s, Renumbered(s, host)) && Renumbered(s, host).history == s.history
  {
    RenumberEffect(s, host);
  }

  /** A start puts its own record next in the history; a refused one puts none. */
  lemma StartAccumulates(s: State, id: TaskId)
    requires id in s.tasks && s.tasks[id].status == Queued
    ensures var (r, started) := Start(s, id);
            && Accumulates(s, r)
            && (started ==> s.history + [RecordOf(s, id)] <= r.history)
            && (!started ==> r.history == s.history)
    decreases WaitingOn(s, s.tasks[id].job.host), 0, 0
  {
    var (s1, ok) := WithLocks(s, id);
    var r := Start(s, id).0;
    if ok {
      var s2 := Launched(s1, id, RecordOf(s, id));
      LaunchAccumulates(s1, id, RecordOf(s, id));
      LaunchFrame(s, s1, id, RecordOf(s, id));
      LaunchedWaiting(s, id);
      if s.tasks[id].job.launch.ReportsAtOnce? {
        FinishAccumulates(s2, id, s.tasks[id].job.launch.code);
        AccumulatesTrans(s1, s2, r);
      }
    } else {
      RequeueAccumulates(s1, id);
    }
    LocksAccumulate(s, s1, r);
  }

  lemma FinishAccumulates(s: State, id: TaskId, code: int)
    ensures Accumulates(s, Finish(s, id, code))
    decreases if id in s.tasks then WaitingOn(s, s.tasks[id].job.host) else {}, 3, 0
  {
    if id in s.tasks && s.tasks[id].status != Cancelled {
      var s1 := Settled(s, id, StatusFor(code), Some(code));
      SettleAccumulates(s, id, StatusFor(code), Some(code));
      assert WaitingOn(s1, s.tasks[id].job.host) <= WaitingOn(s, s.tasks[id].job.host);
      PumpAccumulates(s1, s.tasks[id].job.host);
    }
  }

  lemma ScanAccumulates(s: State, host: HostId, q: seq<TaskId>)
    requires (forall id <- q :: id in WaitingOn(s, host)) && Distinct(q)
    ensures Accumulates(s, Scan(s, host, q).0)
    decreases WaitingOn(s, host), 1, |q|
  {
    if q != [] {
      assert q[0] in q;
      if Blockers(s, s.tasks[q[0]].job) != [] {
        ScanAccumulates(s, host, q[1..]);
      } else {
        StartAccumulates(s, q[0]);
        var (s1, started) := Start(s, q[0]);
        if !started {
          assert forall u <- q[1..] :: u in WaitingOn(s, host) - {q[0]};
          ScanAccumulates(s1, host, q[1..]);
        }
      }
    }
  }

  lemma PumpAccumulates(s: State, host: HostId)
    ensures Accumulates(s, Pump(s, host))
    decreases WaitingOn(s, host), 2, 0
  {
    ScanAccumulates(s, host, QueuedHere(s, host));
    var (s1, started) := Scan(s, host, QueuedHere(s, host));
    if started {
      PumpAccumulates(s1, host);
    } else {
      RenumberAccumulates(s1, host);
    }
  }

  lemma ScheduleAccumulates(s: State, req: Request)
    requires Fresh(s, req.id)
    ensures Accumulates(s, Schedule(s, req).0)
  {
    var own := req.(job := req.job.(external := false));
    var s1 := With(s, own.id, NewTask(own.job));
    assert Accumulates(s, s1);
    StartAccumulates(s1, own.id);
    DecidedCases(s1, own);
    DecidedAccumulates(s1, Decided(s1, own).0, own.id);
  }

  lemma DecidedAccumulates(s1: State, r: State, newcomer: TaskId)
    requires newcomer in s1.tasks && s1.tasks[newcomer].status == Queued && DecidedAs(s1, r, newcomer)
    ensures Accumulates(s1, r)
  {
    StartAccumulates(s1, newcomer);
    EnqueueAccumulates(s1, newcomer);
    assert Accumulates(s1, With(s1, newcomer, s1.tasks[newcomer].(status := Cancelled)));
  }

  lemma CancelAccumulates(s: State, id: TaskId, accepted: bool)
    ensures Accumulates(s, Cancel(s, id, accepted).0)
  {
    if id in s.tasks && (s.tasks[id].status == Running || s.tasks[id].status == Queued) {
      SettleAccumulates(s, id, Cancelled, s.tasks[id].exitCode);
      PumpAccumulates(Settled(s, id, Cancelled, s.tasks[id].exitCode), s.tasks[id].job.host);
    }
  }

  lemma ExternalEndAccumulates(s: State, id: TaskId, status: Status, code: int)
    requires IsFinished(status)
    ensures Accumulates(s, FinishExternal(s, id, status, code))
  {
    if id in s.tasks && s.tasks[id].status == Running {
      var s1 := With(s, id, s.tasks[id].(status := status, finishedAt := Some(s.now), exitCode := Some(code)))
                .(locks := ReleasedForTask(s.locks, id), lockIds := s.lockIds - {id});
      assert Accumulates(s, s1);
      PumpAccumulates(s1, s.tasks[id].job.host);
    }
  }

  lemma StepAccumulates(s: State, e: Event)
    requires Legal(s, e)
    ensures Accumulates(s, Step(s, e))
  {
    match e
    case ScheduleCall(req) => ScheduleAccumulates(s, req);
    case RunnerReport(id, code) => FinishAccumulates(s, id, code);
    case CancelCall(id, accepted) => CancelAccumulates(s, id, accepted);
    case DequeueCall(id) =>
      if id in s.tasks && s.tasks[id].status == Queued {
        RenumberAccumulates(With(s, id, s.tasks[id].(status := Cancelled)), s.tasks[id].job.host);
      }
    case ExternalStart(_, _) =>
    case ExternalEnd(id, status, code) => ExternalEndAccumulates(s, id, status, code);
    case RenewTick =>
    case ClockMoves(_) =>
    case Evict(_) =>
  }

  /** An id that went stale in the queue index stays there in every continuation: its place is used up for good. */
  lemma {:induction false} StaleForGood(s: State, es: seq<Event>, host: HostId, id: TaskId)
    requires LegalRun(s, es) && LeftBehind(s, host, id)
    ensures LeftBehind(Run(s, es), host, id)
    decreases |es|
  {
    if es != [] {
      StepAccumulates(s, es[0]);
      StaleForGood(Step(s, es[0]), es[1..], host, id);
    }
  }

  /** Once stale ids fill the index of a host, every request that would wait there is rejected for ever. */
  lemma FullForGood(s: State, es: seq<Event>, stale: set<TaskId>, req: Request)
    requires LegalRun(s, es) && |stale| >= s.limits.maxQueueSize
    requires (forall id <- stale :: LeftBehind(s, req.job.host, id)) && (req.risky ==> req.force)
    requires var own := req.(job := req.job.(external := false)); var s1 := With(Run(s, es), own.id, NewTask(own.job));
             !GoesToStart(s1, own) && EffectiveIfBusy(s1.tasks, own, Blockers(s1, own.job)) == Queue
    ensures Schedule(Run(s, es), req).1.action == Rejected
  {
    var r := Run(s, es);
    forall id <- stale ensures id in Ids(r.queued, req.job.host) {
      StaleForGood(s, es, req.job.host, id);
    }
    LimitsStay(s, es);
    DistinctCount(Ids(r.queued, req.job.host));
    CardLe(stale, Elements(Ids(r.queued, req.job.host)));
    EnqueueEffect(With(r, req.id, NewTask(req.job.(external := false))), req.id);
  }

  // ---------------------------------------------------------------- a pass starts the first task that can start

  /** Where the first task of a queue that can start stands, or its length if there is none. */
  function FirstStartable(s: State, q: seq<TaskId>): (n: nat)
    requires forall id <- q :: id in s.tasks
    ensures n <= |q| && (forall i :: 0 <= i < n ==> !Startable(s, s.tasks[q[i]].job))
    ensures n < |q| ==> Startable(s, s.tasks[q[n]].job)
  {
    if q == [] then 0
    else
      assert q[0] in q;
      if Startable(s, s.tasks[q[0]].job) then 0 else 1 + FirstStartable(s, q[1..])
  }

  lemma FirstStartableSame(s: State, r: State, q: seq<TaskId>)
    requires forall id <- q :: id in s.tasks && id in r.tasks
    requires forall id <- q :: Startable(s, s.tasks[id].job) <==> Startable(r, r.tasks[id].job)
    ensures FirstStartable(s, q) == FirstStartable(r, q)
  {
    if q != [] {
      assert q[0] in q;
      FirstStartableSame(s, r, q[1..]);
    }
  }

  /**
   What a pass over `q` starts first is the first task of `q` that can start, which then has no queue position any more,
   and nothing if there is none.
   */
  ghost predicate StartsFirst(s: State, host: HostId, q: seq<TaskId>)
    requires (forall id <- q :: id in WaitingOn(s, host)) && Distinct(q)
  {
    var (r, started) := Scan(s, host, q);
    var n := FirstStartable(s, q);
    && (started <==> n < |q|)
    && (started ==> |s.history| < |r.history| && s.history <= r.history && r.history[|s.history|].task == q[n])
    && (started ==> q[n] in r.tasks && r.tasks[q[n]].queuePosition == None)
    && (!started ==> r.history == s.history)
  }

  lemma BlockedStartsFirst(s: State, host: HostId, q: seq<TaskId>)
    requires (forall id <- q :: id in WaitingOn(s, host)) && Distinct(q) && q != [] && q[0] in s.tasks
    requires Blockers(s, s.tasks[q[0]].job) != [] && StartsFirst(s, host, q[1..])
    ensures StartsFirst(s, host, q)
  {
  }

  lemma RefusedStartsFirst(s: State, s1: State, host: HostId, q: seq<TaskId>)
    requires (forall id <- q :: id in WaitingOn(s, host)) && Distinct(q) && q != []
    requires q[0] in s.tasks && s.tasks[q[0]].status == Queued && Start(s, q[0]) == (s1, false)
    requires Blockers(s, s.tasks[q[0]].job) == [] && !LockFree(s, s.tasks[q[0]].job) && s1.history == s.history
    requires forall id <- q[1..] :: id in WaitingOn(s1, host) && id in s.tasks
    requires FirstStartable(s1, q[1..]) == FirstStartable(s, q[1..]) && StartsFirst(s1, host, q[1..])
    ensures StartsFirst(s, host, q)
  {
  }

  lemma StartedStartsFirst(s: State, host: HostId, q: seq<TaskId>)
    requires (forall id <- q :: id in WaitingOn(s, host)) && Distinct(q) && q != []
    requires q[0] in s.tasks && s.tasks[q[0]].status == Queued && Start(s, q[0]).1
    requires Startable(s, s.tasks[q[0]].job)
    ensures StartsFirst(s, host, q)
  {
    StartAccumulates(s, q[0]);
  }

  /**
   A pass starts something exactly when some task of the snapshot can start, and what it starts first is the first
   of these; otherwise it starts nothing at all. Tasks refused their lock on the way do not change that.
   */
  lemma {:induction false} ScanStartsFirst(s: State, host: HostId, q: seq<TaskId>)
    requires Good(s, None, false) && ScanReady(s, host, q)
    ensures StartsFirst(s, host, q)
    decreases |q|
  {
    if q != [] {
      assert q[0] in q;
      if Blockers(s, s.tasks[q[0]].job) != [] {
        TailIsReady(s, host, q);
        ScanStartsFirst(s, host, q[1..]);
        BlockedStartsFirst(s, host, q);
      } else if LockFree(s, s.tasks[q[0]].job) {
        HeadOvertakesNone(s, host, q, false);
        StartKeeps(s, q[0], false);
        StartedStartsFirst(s, host, q);
      } else {
        RefusedGoesOn(s, host, q);
        ScanStartsFirst(Requeued(s, q[0]), host, q[1..]);
        RefusedStartsFirst(s, Requeued(s, q[0]), host, q);
      }
    }
  }

  lemma RefusedGoesOn(s: State, host: HostId, q: seq<TaskId>)
    requires Good(s, None, false) && ScanReady(s, host, q) && q != [] && q[0] in s.tasks && s.tasks[q[0]].status == Queued
    requires !LockFree(s, s.tasks[q[0]].job)
    ensures var r := Requeued(s, q[0]);
            && Start(s, q[0]) == (r, false) && r.history == s.history
            && Good(r, None, false) && ScanReady(r, host, q[1..])
            && (forall id <- q[1..] :: id in s.tasks)
            && FirstStartable(r, q[1..]) == FirstStartable(s, q[1..])
  {
    RefusedIsRequeued(s, q[0]);
    RequeueAccumulates(s, q[0]);
    RefusalKeeps(s, host, q, false);
    assert forall id <- q[1..] :: id in q && id in WaitingOn(s, host);
    assert forall id <- q[1..] :: id in WaitingOn(Requeued(s, q[0]), host);
    RefusalChangesNoStart(s, host, q);
  }

  lemma RefusalChangesNoStart(s: State, host: HostId, q: seq<TaskId>)
    requires Good(s, None, false) && ScanReady(s, host, q) && q != [] && q[0] in s.tasks && s.tasks[q[0]].status == Queued
    requires forall id <- q[1..] :: id in s.tasks && id in Requeued(s, q[0]).tasks
    ensures FirstStartable(Requeued(s, q[0]), q[1..]) == FirstStartable(s, q[1..])
  {
    var r := Requeued(s, q[0]);
    RequeueEffect(s, q[0]);
    RequeueKeeps(s, r, q[0], false);
    forall id <- q[1..] ensures Startable(s, s.tasks[id].job) <==> Startable(r, r.tasks[id].job) {
      BlockersSame(s, r, s.tasks[id].job);
    }
    FirstStartableSame(s, r, q[1..]);
  }

  // ---------------------------------------------------------------- with room in the index nothing is dropped

  /** Every task waiting on the host is indexed there, but perhaps for `pending`. */
  ghost predicate Listed(s: State, host: HostId, pending: Option<TaskId>) {
    forall u <- WaitingOn(s, host) :: Some(u) != pending ==> u in Ids(s.queued, host)
  }

  ghost predicate Roomy(s: State, host: HostId) {
    |Ids(s.queued, host)| < s.limits.maxQueueSize
  }

  /** Nothing but perhaps `other` was cancelled, and the index of the host did not grow. */
  ghost predicate Spares(s: State, r: State, host: HostId, other: Option<TaskId>) {
    && r.tasks.Keys == s.tasks.Keys && r.limits == s.limits
    && (forall u <- s.tasks :: r.tasks[u].job == s.tasks[u].job)
    && (forall u <- s.tasks :: Some(u) != other && r.tasks[u].status == Cancelled ==> s.tasks[u].status == Cancelled)
    && Listed(r, host, None) && |Ids(r.queued, host)| <= |Ids(s.queued, host)|
  }

  lemma DropIdShortens(ix: Index, host: HostId, id: TaskId)
    ensures |Ids(DropId(ix, host, id), host)| <= |Ids(ix, host)|
  {
    PickedShortens(Ids(ix, host), (set i <- Ids(ix, host) | i != id));
  }

  lemma PickedShortens(ids: seq<TaskId>, chosen: set<TaskId>)
    ensures |Picked(ids, chosen)| <= |ids|
  {
  }

  lemma LaunchSpares(s: State, id: TaskId, record: StartRecord)
    requires id in s.tasks && s.tasks[id].status == Queued && Listed(s, s.tasks[id].job.host, Some(id))
    ensures Spares(s, Launched(s, id, record), s.tasks[id].job.host, None)
  {
    DropIdEffect(s.queued, s.tasks[id].job.host, id);
    DropIdShortens(s.queued, s.tasks[id].job.host, id);
  }

  lemma SettleSpares(s: State, id: TaskId, status: Status, code: Option<int>)
    requires id in s.tasks && IsFinished(status) && Listed(s, s.tasks[id].job.host, None)
    ensures Spares(s, Settled(s, id, status, code), s.tasks[id].job.host, if status == Cancelled then Some(id) else None)
  {
    DropIdEffect(s.queued, s.tasks[id].job.host, id);
    DropIdShortens(s.queued, s.tasks[id].job.host, id);
  }

  /** A task of the queue that is refused its lock goes back to the queue if there is room. */
  lemma RequeueSpares(s: State, id: TaskId)
    requires id in s.tasks && s.tasks[id].status == Queued && Listed(s, s.tasks[id].job.host, Some(id))
    requires Roomy(s, s.tasks[id].job.host) && id in Ids(s.queued, s.tasks[id].job.host)
    ensures Spares(s, Requeued(s, id), s.tasks[id].job.host, None)
  {
    EnqueueEffect(s, id);
  }

  lemma SparesTrans(a: State, b: State, c: State, host: HostId, other: Option<TaskId>)
    requires Spares(a, b, host, other) && Spares(b, c, host, None)
    ensures Spares(a, c, host, other)
  {
  }

  /** Locks do not matter to who is waiting where. */
  lemma LocksSpare(s: State, s1: State, r: State, host: HostId)
    requires s1 == s.(locks := s1.locks, lockIds := s1.lockIds) && Spares(s1, r, host, None)
    ensures Spares(s, r, host, None)
  {
  }

  lemma StartSpares(s: State, id: TaskId)
    requires id in s.tasks && s.tasks[id].status == Queued && Listed(s, s.tasks[id].job.host, Some(id))
    requires Roomy(s, s.tasks[id].job.host)
    requires id in Ids(s.queued, s.tasks[id].job.host) || Start(s, id).1
    ensures Spares(s, Start(s, id).0, s.tasks[id].job.host, None)
    decreases WaitingOn(s, s.tasks[id].job.host), 0, 0
  {
    var s1, host := WithLocks(s, id).0, s.tasks[id].job.host;
    if WithLocks(s, id).1 {
      StartIsLaunch(s, id);
      AfterLaunchFrame(s, id);
      LaunchSpares(s1, id, RecordOf(s, id));
      if s.tasks[id].job.launch.ReportsAtOnce? {
        FinishSpares(AfterLaunch(s, id), id, s.tasks[id].job.launch.code);
        SparesTrans(s1, AfterLaunch(s, id), Start(s, id).0, host, None);
      }
    } else {
      StartIsRefused(s, id);
      RequeueSpares(s1, id);
    }
    LocksSpare(s, s1, Start(s, id).0, host);
  }

  lemma FinishSpares(s: State, id: TaskId, code: int)
    requires id in s.tasks && Listed(s, s.tasks[id].job.host, None) && Roomy(s, s.tasks[id].job.host)
    ensures Spares(s, Finish(s, id, code), s.tasks[id].job.host, None)
    decreases WaitingOn(s, s.tasks[id].job.host), 3, 0
  {
    var host := s.tasks[id].job.host;
    if s.tasks[id].status != Cancelled {
      var s1 := Settled(s, id, StatusFor(code), Some(code));
      SettleSpares(s, id, StatusFor(code), Some(code));
      assert WaitingOn(s1, host) <= WaitingOn(s, host);
      PumpSpares(s1, host);
      SparesTrans(s, s1, Finish(s, id, code), host, None);
    }
  }

  lemma ScanSpares(s: State, host: HostId, q: seq<TaskId>)
    requires (forall id <- q :: id in WaitingOn(s, host)) && Distinct(q) && Listed(s, host, None) && Roomy(s, host)
    ensures Spares(s, Scan(s, host, q).0, host, None)
    decreases WaitingOn(s, host), 1, |q|
  {
    if q != [] {
      assert q[0] in q;
      if Blockers(s, s.tasks[q[0]].job) != [] {
        ScanSpares(s, host, q[1..]);
      } else {
        StartSpares(s, q[0]);
        var (s1, started) := Start(s, q[0]);
        if !started {
          assert forall u <- q[1..] :: u in WaitingOn(s, host) - {q[0]};
          ScanSpares(s1, host, q[1..]);
          SparesTrans(s, s1, Scan(s, host, q).0, host, None);
        }
      }
    }
  }

  /** While the index has room, the pump cancels nobody. */
  lemma PumpSpares(s: State, host: HostId)
    requires Listed(s, host, None) && Roomy(s, host)
    ensures Spares(s, Pump(s, host), host, None)
    decreases WaitingOn(s, host), 2, 0
  {
    ScanSpares(s, host, QueuedHere(s, host));
    var (s1, started) := Scan(s, host, QueuedHere(s, host));
    if started {
      PumpSpares(s1, host);
      SparesTrans(s, s1, Pump(s, host), host, None);
    } else {
      RenumberSpares(s1, host);
      SparesTrans(s, s1, Pump(s, host), host, None);
    }
  }

  lemma RenumberSpares(s: State, host: HostId)
    requires Listed(s, host, None)
    ensures Spares(s, Renumbered(s, host), host, None)
  {
    RenumberEffect(s, host);
    assert WaitingOn(Renumbered(s, host), host) <= WaitingOn(s, host);
  }

  /** A task that is not cancelled is still there, with its job, and still not cancelled. */
  ghost predicate Retained(s: State, r: State, id: TaskId) {
    && id in s.tasks && s.tasks[id].status != Cancelled
    && id in r.tasks && r.tasks[id].status != Cancelled && r.tasks[id].job == s.tasks[id].job
  }

  lemma PumpRetains(s: State, host: HostId, id: TaskId)
    requires id in s.tasks && s.tasks[id].status != Cancelled
    requires id in WaitingOn(s, host) ==> Listed(s, host, None) && Roomy(s, host)
    ensures Retained(s, Pump(s, host), id)
  {
    if id in WaitingOn(s, host) {
      PumpSpares(s, host);
    } else {
      PumpFrame(s, host);
    }
  }

  /** The end of another task, whether reported, cancelled or external, and the pump after it. */
  lemma EndRetains(s: State, s1: State, other: TaskId, id: TaskId)
    requires IndexesCover(s, None) && Ends(s, s1, other) && other != id
    requires id in s.tasks && s.tasks[id].status != Cancelled && Roomy(s, s.tasks[id].job.host)
    ensures Retained(s, Pump(s1, s.tasks[other].job.host), id)
  {
    var host := s.tasks[other].job.host;
    if id in WaitingOn(s1, host) {
      EndKeepsCover(s, s1, other);
      DistinctCount(Ids(s1.queued, host));
      DistinctCount(Ids(s.queued, host));
      CardLe(Elements(Ids(s1.queued, host)), Elements(Ids(s.queued, host)));
    }
    PumpRetains(s1, host, id);
  }

  lemma ReportRetains(s: State, other: TaskId, code: int, id: TaskId)
    requires IndexesCover(s, None) && id in s.tasks && s.tasks[id].status != Cancelled && Roomy(s, s.tasks[id].job.host)
    requires other == id ==> s.tasks[id].status != Queued
    ensures Retained(s, Finish(s, other, code), id)
  {
    if other == id {
      FinishFrame(s, id, code);
    } else if other in s.tasks && s.tasks[other].status != Cancelled {
      SettledEnds(s, other, StatusFor(code), Some(code));
      EndRetains(s, Settled(s, other, StatusFor(code), Some(code)), other, id);
    }
  }

  lemma CancelRetains(s: State, other: TaskId, accepted: bool, id: TaskId)
    requires IndexesCover(s, None) && id in s.tasks && s.tasks[id].status != Cancelled && Roomy(s, s.tasks[id].job.host)
    requires other != id
    ensures Retained(s, Cancel(s, other, accepted).0, id)
  {
    if other in s.tasks && (s.tasks[other].status == Running || s.tasks[other].status == Queued) {
      SettledEnds(s, other, Cancelled, s.tasks[other].exitCode);
      EndRetains(s, Settled(s, other, Cancelled, s.tasks[other].exitCode), other, id);
    }
  }

  lemma ExternalEndRetains(s: State, other: TaskId, status: Status, code: int, id: TaskId)
    requires IndexesCover(s, None) && id in s.tasks && s.tasks[id].status != Cancelled && Roomy(s, s.tasks[id].job.host)
    requires other != id && IsFinished(status)
    ensures Retained(s, FinishExternal(s, other, status, code), id)
  {
    if other in s.tasks && s.tasks[other].status == Running {
      var s1 := With(s, other, s.tasks[other].(status := status, finishedAt := Some(s.now), exitCode := Some(code)))
                .(locks := ReleasedForTask(s.locks, other), lockIds := s.lockIds - {other});
      assert Ends(s, s1, other);
      EndRetains(s, s1, other, id);
    }
  }

  lemma StartRetains(s1: State, newcomer: TaskId, id: TaskId)
    requires newcomer in s1.tasks && s1.tasks[newcomer].status == Queued && id != newcomer
    requires IndexesCover(s1, Some(newcomer))
    requires id in s1.tasks && s1.tasks[id].status != Cancelled && Roomy(s1, s1.tasks[id].job.host)
    ensures Retained(s1, Start(s1, newcomer).0, id)
  {
    if id !in WaitingOn(s1, s1.tasks[newcomer].job.host) {
      StartFrame(s1, newcomer);
    } else if Start(s1, newcomer).1 {
      StartSpares(s1, newcomer);
    } else {
      EnqueueEffect(Indexed(WithLocks(s1, newcomer).0, newcomer), newcomer);
    }
  }

  lemma EnqueueRetains(s1: State, newcomer: TaskId, id: TaskId)
    requires newcomer in s1.tasks && id != newcomer && id in s1.tasks && s1.tasks[id].status != Cancelled
    ensures Retained(s1, Enqueued(s1, newcomer).0, id)
  {
    EnqueueEffect(s1, newcomer);
  }

  lemma DecidedRetains(s1: State, r: State, newcomer: TaskId, id: TaskId)
    requires newcomer in s1.tasks && s1.tasks[newcomer].status == Queued && id != newcomer && DecidedAs(s1, r, newcomer)
    requires IndexesCover(s1, Some(newcomer))
    requires id in s1.tasks && s1.tasks[id].status != Cancelled && Roomy(s1, s1.tasks[id].job.host)
    ensures Retained(s1, r, id)
  {
    if r == Start(s1, newcomer).0 {
      StartRetains(s1, newcomer, id);
    } else if r == Enqueued(s1, newcomer).0 {
      EnqueueRetains(s1, newcomer, id);
    }
  }

  lemma AddedIsCovered(s: State, id: TaskId, job: Job)
    requires IndexesCover(s, None) && Fresh(s, id)
    ensures IndexesCover(With(s, id, NewTask(job)), Some(id))
  {
  }

  lemma ScheduleRetains(s: State, req: Request, id: TaskId)
    requires IndexesCover(s, None) && Fresh(s, req.id)
    requires id in s.tasks && s.tasks[id].status != Cancelled && Roomy(s, s.tasks[id].job.host)
    ensures Retained(s, Schedule(s, req).0, id)
  {
    var own := req.(job := req.job.(external := false));
    var s1 := With(s, own.id, NewTask(own.job));
    AddedIsCovered(s, own.id, own.job);
    StartRetains(s1, own.id, id);
    DecidedCases(s1, own);
    DecidedRetains(s1, Decided(s1, own).0, own.id, id);
  }

  /** Events that take nothing off a host: they leave the record as it is, its queue position aside. */
  lemma QuietRetains(s: State, e: Event, id: TaskId)
    requires Legal(s, e) && (e.ExternalStart? || e.RenewTick? || e.ClockMoves? || e.Evict?)
    requires id in s.tasks && s.tasks[id].status != Cancelled && !AimedAt(e, id)
    ensures Retained(s, Step(s, e), id)
  {
  }

  lemma DequeueRetains(s: State, other: TaskId, id: TaskId)
    requires id in s.tasks && s.tasks[id].status != Cancelled && other != id
    ensures Retained(s, Dequeue(s, other).0, id)
  {
    if other in s.tasks && s.tasks[other].status == Queued {
      RenumberEffect(With(s, other, s.tasks[other].(status := Cancelled)), s.tasks[other].job.host);
    }
  }

  /** With room in the index of its host, no event but those aimed at the task itself cancels it. */
  lemma StepRetains(s: State, e: Event, id: TaskId)
    requires IndexesCover(s, None) && Legal(s, e)
    requires id in s.tasks && s.tasks[id].status != Cancelled && Roomy(s, s.tasks[id].job.host) && !AimedAt(e, id)
    ensures Retained(s, Step(s, e), id)
  {
    match e
    case ScheduleCall(req) => ScheduleRetains(s, req, id);
    case RunnerReport(other, code) => ReportRetains(s, other, code, id);
    case CancelCall(other, accepted) => CancelRetains(s, other, accepted, id);
    case DequeueCall(other) => DequeueRetains(s, other, id);
    case ExternalEnd(other, status, code) => ExternalEndRetains(s, other, status, code, id);
    case _ => QuietRetains(s, e, id);
  }

  /** A call that takes the task away: cancelling it, withdrawing it, ending it as external, or evicting it. */
  predicate AimedAt(e: Event, id: TaskId) {
    match e
    case CancelCall(other, _) => other == id
    case DequeueCall(other) => other == id
    case ExternalEnd(other, _, _) => other == id
    case Evict(ids) => id in ids
    case _ => false
  }

  /** The queue index of the host is below its limit before each event. */
  ghost predicate RoomyRun(s: State, es: seq<Event>, host: HostId)
    decreases |es|
  {
    es != [] ==> Roomy(s, host) && RoomyRun(Step(s, es[0]), es[1..], host)
  }

  /** While the index of its host has room, an accepted task is never cancelled, unless by a call on the task itself. */
  lemma {:induction false} RunRetains(s: State, es: seq<Event>, id: TaskId)
    requires Sound(s, false) && LegalRun(s, es) && id in s.tasks && s.tasks[id].status != Cancelled
    requires RoomyRun(s, es, s.tasks[id].job.host) && forall e <- es :: !AimedAt(e, id)
    ensures Retained(s, Run(s, es), id)
    decreases |es|
  {
    if es != [] {
      assert es[0] in es;
      StepRetains(s, es[0], id);
      StepKeeps(s, es[0], false);
      RunRetains(Step(s, es[0]), es[1..], id);
    }
  }

  /** With room in the index of its host, exactly two events cancel a waiting task: its cancellation and its withdrawal. */
  lemma WaitingIsCancelledIff(s: State, e: Event, id: TaskId)
    requires IndexesCover(s, None) && Legal(s, e)
    requires id in s.tasks && s.tasks[id].status == Queued && Roomy(s, s.tasks[id].job.host)
    ensures var r := Step(s, e);
            && id in r.tasks
            && (r.tasks[id].status == Cancelled <==> (e.CancelCall? || e.DequeueCall?) && e.id == id)
  {
    if e.CancelCall? && e.id == id {
      PumpFrame(Settled(s, id, Cancelled, s.tasks[id].exitCode), s.tasks[id].job.host);
    } else if e.DequeueCall? && e.id == id {
      RenumberEffect(With(s, id, s.tasks[id].(status := Cancelled)), s.tasks[id].job.host);
    } else if e.ExternalEnd? && e.id == id {
      assert Step(s, e) == s;
    } else {
      StepRetains(s, e, id);
    }
  }

  // ---------------------------------------------------------------- without room the pump drops tasks

  /** A waiting task that nothing blocks but that cannot have its lock. */
  ghost predicate Refused(s: State, id: TaskId) {
    id in s.tasks && s.tasks[id].status == Queued && Blockers(s, s.tasks[id].job) == [] && !LockFree(s, s.tasks[id].job)
  }

  /** The state without a place in the queue for `id`. */
  function Dropped(s: State, id: TaskId): State
    requires id in s.tasks
  {
    With(s, id, s.tasks[id].(status := Cancelled))
  }

  /** A waiting, indexed task that nothing blocks and that asks in vain for its lock. */
  ghost predicate AsksInVain(s: State, host: HostId, id: TaskId) {
    && id in WaitingOn(s, host) && id in Ids(s.queued, host)
    && Blockers(s, s.tasks[id].job) == [] && WithLocks(s, id) == (s, false)
  }

  ghost predicate AllInVain(s: State, host: HostId, q: seq<TaskId>) {
    forall id <- q :: AsksInVain(s, host, id)
  }

  lemma AddIdKnown(ix: Index, host: HostId, id: TaskId)
    requires id in Ids(ix, host)
    ensures AddId(ix, host, id) == ix
  {
  }

  lemma RequeuedFull(s: State, host: HostId, id: TaskId)
    requires id in WaitingOn(s, host) && id in Ids(s.queued, host) && !Roomy(s, host)
    ensures Requeued(s, id) == Dropped(s, id)
  {
    AddIdKnown(s.queued, host, id);
  }

  /** A dropped task is none of the competitors, so nothing changes for the others. */
  lemma DropKeepsBlockers(s: State, id: TaskId, j: Job)
    requires id in s.tasks && s.tasks[id].status == Queued
    ensures Blockers(Dropped(s, id), j) == Blockers(s, j)
  {
    var r := Dropped(s, id);
    assert Competing(r) == Competing(s);
    BlockersSame(s, r, j);
  }

  lemma DropKeepsVain(s: State, host: HostId, id: TaskId, u: TaskId)
    requires id in WaitingOn(s, host) && u != id && AsksInVain(s, host, u)
    ensures AsksInVain(Dropped(s, id), host, u)
  {
    DropKeepsBlockers(s, id, s.tasks[u].job);
  }

  /** Trying the head when the index is full cancels it, and the pass goes on as before. */
  lemma HeadIsDropped(s: State, host: HostId, q: seq<TaskId>)
    requires q != [] && Distinct(q) && AllInVain(s, host, q) && !Roomy(s, host) && q[0] in s.tasks
    ensures AllInVain(Dropped(s, q[0]), host, q[1..])
    ensures Scan(s, host, q) == Scan(Dropped(s, q[0]), host, q[1..])
  {
    var id := q[0];
    assert id in q && AsksInVain(s, host, id);
    RequeuedFull(s, host, id);
    StartIsRefused(s, id);
    forall u <- q[1..] ensures AsksInVain(Dropped(s, id), host, u) {
      assert u in q && u != id;
      DropKeepsVain(s, host, id, u);
    }
  }

  ghost predicate AllDropped(r: State, q: seq<TaskId>) {
    forall id <- q :: id in r.tasks && r.tasks[id].status == Cancelled
  }

  /** The rest of the pass leaves the head alone: it is not waiting any more. */
  lemma HeadDroppedToo(s: State, r: State, host: HostId, q: seq<TaskId>)
    requires q != [] && q[0] in s.tasks && OnlyWaitersMoved(Dropped(s, q[0]), r, host) && AllDropped(r, q[1..])
    ensures AllDropped(r, q)
  {
    assert q == [q[0]] + q[1..];
  }

  lemma {:induction false} ScanDropsAll(s: State, host: HostId, q: seq<TaskId>)
    requires !Roomy(s, host) && Distinct(q) && AllInVain(s, host, q)
    ensures !Scan(s, host, q).1 && AllDropped(Scan(s, host, q).0, q)
    decreases |q|
  {
    if q != [] {
      assert q[0] in q && AsksInVain(s, host, q[0]);
      HeadIsDropped(s, host, q);
      ScanDropsAll(Dropped(s, q[0]), host, q[1..]);
      ScanFrame(Dropped(s, q[0]), host, q[1..]);
      HeadDroppedToo(s, Scan(s, host, q).0, host, q);
    }
  }

  lemma RefusedIsVain(s: State, host: HostId, id: TaskId)
    requires Core(s, None) && id in WaitingOn(s, host) && Refused(s, id)
    ensures AsksInVain(s, host, id)
  {
    LockOutcome(s, id);
  }

  /**
   With the index full, a pump that can start nothing because the tasks waiting unblocked are all refused their
   locks drops every one of them, although nobody asked for it.
   */
  lemma PumpDropsRefused(s: State, host: HostId)
    requires Core(s, None) && !Roomy(s, host) && forall id <- WaitingOn(s, host) :: Refused(s, id)
    ensures forall id <- WaitingOn(s, host) :: Pump(s, host).tasks[id].status == Cancelled
  {
    var q := QueuedHere(s, host);
    forall id <- q ensures AsksInVain(s, host, id) {
      RefusedIsVain(s, host, id);
    }
    ScanDropsAll(s, host, q);
    var s1 := Scan(s, host, q).0;
    RenumberEffect(s1, host);
    forall id <- WaitingOn(s, host) ensures s1.tasks[id].status == Cancelled && id !in WaitingOn(s1, host) {
      assert id in q;
    }
  }

  // ---------------------------------------------------------------- a refused start loses its place

  ghost predicate Ahead(q: seq<TaskId>, a: TaskId, b: TaskId) {
    exists i, j :: 0 <= i < j < |q| && q[i] == a && q[j] == b
  }

  lemma EarlierIsAhead(r: State, host: HostId, a: TaskId, b: TaskId)
    requires a in QueuedHere(r, host) && b in QueuedHere(r, host) && QueueKey(r.tasks, a) < QueueKey(r.tasks, b)
    ensures Ahead(QueuedHere(r, host), a, b)
  {
    var q := QueuedHere(r, host);
    SortSorts(r.tasks, Picked(Ids(r.queued, host), WaitingOn(r, host)));
    var i :| 0 <= i < |q| && q[i] == a;
    var j :| 0 <= j < |q| && q[j] == b;
    assert i < j;
  }

  lemma RequeuedIsBehind(s: State, r: State, host: HostId, id: TaskId, other: TaskId)
    requires Requeues(s, r, id) && r.tasks[id].status == Queued && s.tasks[id].job.host == host
    requires other in WaitingOn(s, host) && other in Ids(s.queued, host) && other != id && QueueKey(s.tasks, other) < s.now
    ensures Ahead(QueuedHere(r, host), other, id)
  {
    assert r.tasks[other].(queuePosition := s.tasks[other].queuePosition) == s.tasks[other];
    EarlierIsAhead(r, host, other, id);
  }

  /** A waiting task that the pump tried and that went back to the queue stands behind all that were queued before now. */
  lemma RefusedLosesPlace(s: State, id: TaskId, host: HostId, other: TaskId)
    requires Core(s, None) && id in WaitingOn(s, host) && !LockFree(s, s.tasks[id].job) && Roomy(s, host)
    requires other in WaitingOn(s, host) && other != id && QueueKey(s.tasks, other) < s.now
    ensures !Start(s, id).1 && Ahead(QueuedHere(Start(s, id).0, host), other, id)
  {
    RefusedIsRequeued(s, id);
    RequeueEffect(s, id);
    RequeuedTells(s, id);
    RequeuedIsBehind(s, Requeued(s, id), host, id, other);
  }

  lemma RefusedIsRequeued(s: State, id: TaskId)
    requires Core(s, None) && id in s.tasks && s.tasks[id].status == Queued && !LockFree(s, s.tasks[id].job)
    ensures Start(s, id) == (Requeued(s, id), false) && Indexed(s, id) == s
  {
    LockOutcome(s, id);
    StartIsRefused(s, id);
    AddIdKnown(s.queued, s.tasks[id].job.host, id);
  }
}
