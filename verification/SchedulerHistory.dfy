/** What the start records of a run say: a task starts at most once, and only on request in spite of its blockers. */
module SchedulerHistory {
  import opened Base
  import opened LockTables
  import opened SchedulerModel
  import opened SchedulerInvariants
  import opened SchedulerRuns
  import opened SchedulerOutcomes
  import opened SchedulerPlaces
  import opened SchedulerTheorems

  /** A start that respects the rules of its cost class: what having no blockers comes to. */
  ghost predicate Respects(r: StartRecord, limits: Limits) {
    !r.job.bypass ==>
      && AdmittedStart(r)
      && (r.job.cost == Tiny ==> !BesideExclusive(r))
      && (r.job.cost == Small || r.job.cost == Medium ==> r.beside == [] || |r.beside| < limits.maxTotalRunning)
  }

  /** Starts break the rules only for the requests in `anyway`. */
  ghost predicate Excused(s: State, anyway: set<TaskId>) {
    forall r <- s.history :: r.task in anyway || Respects(r, s.limits)
  }

  /** No id of `used` starts twice, and no other starts or waits. */
  ghost predicate StartsOnce(s: State, used: set<TaskId>) {
    && (forall i, j :: 0 <= i < j < |s.history| ==> s.history[i].task != s.history[j].task)
    && (forall r <- s.history :: r.task in used && (r.task in s.tasks ==> s.tasks[r.task].status != Queued))
    && (forall id <- s.tasks :: s.tasks[id].status == Queued ==> id in used)
  }

  /** The requests that ask to run anyway, and the ids that requests have used; None where ids may be used again. */
  datatype Ledger = Ledger(anyway: set<TaskId>, used: Option<set<TaskId>>)

  ghost predicate Recorded(s: State, l: Ledger) {
    Excused(s, l.anyway) && (l.used.Some? ==> StartsOnce(s, l.used.value))
  }

  /** Nothing starts, and nothing is waiting that was not. */
  ghost predicate Quiet(s: State, r: State) {
    && r.history == s.history && r.limits == s.limits
    && forall id <- r.tasks :: r.tasks[id].status == Queued ==> id in s.tasks && s.tasks[id].status == Queued
  }

  lemma QuietKeeps(s: State, r: State, l: Ledger)
    requires Recorded(s, l) && Quiet(s, r)
    ensures Recorded(r, l)
  {
  }

  lemma RenumberedIsQuiet(s: State, host: HostId)
    ensures Quiet(s, Renumbered(s, host))
  {
    RenumberEffect(s, host);
  }

  lemma RequeuedIsQuiet(s: State, id: TaskId)
    requires id in s.tasks && s.tasks[id].status == Queued
    ensures Quiet(s, Requeued(s, id)) && Quiet(s, Enqueued(s, id).0)
  {
    EnqueueEffect(s, id);
    EnqueueEffect(Indexed(s, id), id);
  }

  lemma SettledIsQuiet(s: State, id: TaskId, status: Status, code: Option<int>)
    requires id in s.tasks && IsFinished(status)
    ensures Quiet(s, Settled(s, id, status, code))
  {
  }

  lemma UnblockedRespects(s: State, id: TaskId)
    requires Core(s, Some(id)) && id in s.tasks && Blockers(s, s.tasks[id].job) == []
    ensures Respects(RecordOf(s, id), s.limits)
  {
    UnblockedIsAdmitted(s, id);
    if s.tasks[id].job.cost == Small || s.tasks[id].job.cost == Medium {
      UnblockedIsBelow(s, id);
    }
  }

  lemma UnblockedIsBelow(s: State, id: TaskId)
    requires id in s.tasks && Blockers(s, s.tasks[id].job) == []
    requires s.tasks[id].job.cost == Small || s.tasks[id].job.cost == Medium
    ensures RecordOf(s, id).beside == [] || |RecordOf(s, id).beside| < s.limits.maxTotalRunning
  {
  }

  /** May this task start, as far as the records are concerned? */
  ghost predicate MayBeRecorded(s: State, id: TaskId, l: Ledger)
    requires id in s.tasks
  {
    id in l.anyway || Respects(RecordOf(s, id), s.limits)
  }

  lemma LaunchRecords(s: State, id: TaskId, l: Ledger)
    requires Core(s, Some(id)) && id in s.tasks && s.tasks[id].status == Queued && LockFree(s, s.tasks[id].job)
    requires Recorded(s, l) && MayBeRecorded(s, id, l)
    ensures Recorded(AfterLaunch(s, id), l)
  {
    LaunchEffect(s, id);
    if l.used.Some? {
      LaunchStartsOnce(s, AfterLaunch(s, id), id, l.used.value);
    }
  }

  lemma LaunchStartsOnce(s: State, r: State, id: TaskId, used: set<TaskId>)
    requires StartsOnce(s, used) && id in s.tasks && s.tasks[id].status == Queued
    requires r.history == s.history + [RecordOf(s, id)]
    requires r.tasks == s.tasks[id := s.tasks[id].(status := Running, startedAt := Some(s.now))]
    ensures StartsOnce(r, used)
  {
  }

  lemma StartRecords(s: State, id: TaskId, l: Ledger)
    requires Good(s, Some(id), false) && id in s.tasks && s.tasks[id].status == Queued && Recorded(s, l)
    requires LockFree(s, s.tasks[id].job) ==> MayStart(s, id, false) && MayBeRecorded(s, id, l)
    ensures Recorded(Start(s, id).0, l)
    decreases WaitingOn(s, s.tasks[id].job.host), 0, 0
  {
    if LockFree(s, s.tasks[id].job) {
      LaunchedStartKeeps(s, id, false);
      StartIsLaunch(s, id);
      LaunchRecords(s, id, l);
      if s.tasks[id].job.launch.ReportsAtOnce? {
        FinishRecords(AfterLaunch(s, id), id, s.tasks[id].job.launch.code, l);
      }
    } else {
      RefusedStartKeeps(s, id, false);
      RequeuedIsQuiet(s, id);
      QuietKeeps(s, Requeued(s, id), l);
    }
  }

  lemma FinishRecords(s: State, id: TaskId, code: int, l: Ledger)
    requires Good(s, None, false) && Recorded(s, l)
    ensures Recorded(Finish(s, id, code), l)
    decreases if id in s.tasks then WaitingOn(s, s.tasks[id].job.host) else {}, 3, 0
  {
    if id in s.tasks && s.tasks[id].status != Cancelled {
      var s1 := Settled(s, id, StatusFor(code), Some(code));
      SettledEnds(s, id, StatusFor(code), Some(code));
      EndKeeps(s, s1, id, false);
      EndShrinks(s, s1, id);
      SettledIsQuiet(s, id, StatusFor(code), Some(code));
      QuietKeeps(s, s1, l);
      PumpRecords(s1, s.tasks[id].job.host, l);
    }
  }

  /** The head of a pass is started, and its queue position goes. */
  lemma ScanStarts(s: State, host: HostId, q: seq<TaskId>)
    requires (forall id <- q :: id in WaitingOn(s, host)) && Distinct(q) && q != [] && q[0] in s.tasks
    requires s.tasks[q[0]].status == Queued && Blockers(s, s.tasks[q[0]].job) == [] && Start(s, q[0]).1
    ensures Quiet(Start(s, q[0]).0, Scan(s, host, q).0)
  {
  }

  /** The head of a pass is refused, and the pass goes on from there. */
  lemma ScanGoesOn(s: State, r: State, host: HostId, q: seq<TaskId>)
    requires (forall id <- q :: id in WaitingOn(s, host)) && Distinct(q) && q != [] && q[0] in s.tasks
    requires s.tasks[q[0]].status == Queued && Blockers(s, s.tasks[q[0]].job) == [] && Start(s, q[0]) == (r, false)
    requires forall id <- q[1..] :: id in WaitingOn(r, host)
    ensures Scan(s, host, q) == Scan(r, host, q[1..])
  {
  }

  lemma ScanRecords(s: State, host: HostId, q: seq<TaskId>, l: Ledger)
    requires Good(s, None, false) && ScanReady(s, host, q) && Recorded(s, l)
    ensures Recorded(Scan(s, host, q).0, l)
    decreases WaitingOn(s, host), 1, |q|, 1
  {
    if q != [] {
      assert q[0] in q;
      if Blockers(s, s.tasks[q[0]].job) != [] {
        TailIsReady(s, host, q);
        ScanRecords(s, host, q[1..], l);
      } else if LockFree(s, s.tasks[q[0]].job) {
        HeadRecords(s, host, q, l);
      } else {
        RefusedRecords(s, host, q, l);
      }
    }
  }

  lemma HeadRecords(s: State, host: HostId, q: seq<TaskId>, l: Ledger)
    requires Good(s, None, false) && ScanReady(s, host, q) && Recorded(s, l) && q != []
    requires q[0] in WaitingOn(s, host) && Blockers(s, s.tasks[q[0]].job) == [] && LockFree(s, s.tasks[q[0]].job)
    ensures Recorded(Scan(s, host, q).0, l)
    decreases WaitingOn(s, host), 1, |q|, 0
  {
    HeadOvertakesNone(s, host, q, false);
    UnblockedRespects(s, q[0]);
    StartRecords(s, q[0], l);
    LockOutcome(s, q[0]);
    StartIsLaunch(s, q[0]);
    ScanStarts(s, host, q);
    QuietKeeps(Start(s, q[0]).0, Scan(s, host, q).0, l);
  }

  lemma RefusedKeepsRecords(s: State, host: HostId, id: TaskId, l: Ledger)
    requires Recorded(s, l) && id in WaitingOn(s, host)
    ensures Recorded(Requeued(s, id), l)
    ensures WaitingOn(Requeued(s, id), host) == WaitingOn(s, host) || WaitingOn(Requeued(s, id), host) < WaitingOn(s, host)
  {
    RequeuedIsQuiet(s, id);
    RequeueKeepsWaiting(s, id);
    QuietKeeps(s, Requeued(s, id), l);
  }

  lemma RefusedShift(s: State, host: HostId, q: seq<TaskId>)
    requires ScanReady(s, host, q) && q != [] && q[0] in WaitingOn(s, host) && Blockers(s, s.tasks[q[0]].job) == []
    requires Start(s, q[0]) == (Requeued(s, q[0]), false) && ScanReady(Requeued(s, q[0]), host, q[1..])
    ensures Scan(s, host, q) == Scan(Requeued(s, q[0]), host, q[1..])
  {
    ScanGoesOn(s, Requeued(s, q[0]), host, q);
  }

  lemma RefusedRecords(s: State, host: HostId, q: seq<TaskId>, l: Ledger)
    requires Good(s, None, false) && ScanReady(s, host, q) && Recorded(s, l) && q != []
    requires q[0] in WaitingOn(s, host) && Blockers(s, s.tasks[q[0]].job) == [] && !LockFree(s, s.tasks[q[0]].job)
    ensures Recorded(Scan(s, host, q).0, l)
    decreases WaitingOn(s, host), 1, |q|, 0
  {
    RefusedGoesOn(s, host, q);
    RefusedKeepsRecords(s, host, q[0], l);
    RefusedShift(s, host, q);
    ScanRecords(Requeued(s, q[0]), host, q[1..], l);
  }

  lemma PumpRecords(s: State, host: HostId, l: Ledger)
    requires Good(s, None, false) && Recorded(s, l)
    ensures Recorded(Pump(s, host), l)
    decreases WaitingOn(s, host), 2, 0
  {
    SnapshotIsReady(s, host);
    ScanRecords(s, host, QueuedHere(s, host), l);
    ScanKeeps(s, host, QueuedHere(s, host), false);
    var (s1, started) := Scan(s, host, QueuedHere(s, host));
    if started {
      PumpRecords(s1, host, l);
    } else {
      RenumberedIsQuiet(s1, host);
      QuietKeeps(s1, Renumbered(s1, host), l);
    }
  }

  // ---------------------------------------------------------------- every event

  /** A request that takes part in scheduling and asks, or by its cost is taken, to run in spite of blockers. */
  predicate AsksAnyway(req: Request) {
    && !req.job.bypass
    && match req.ifBusy
       case Some(choice) => choice == RunAnyway
       case None => req.job.cost == Tiny || req.job.cost == Small
  }

  function Noted(l: Ledger, e: Event): Ledger {
    if e.ScheduleCall? && l.used.Some? then l.(used := Some(l.used.value + {e.req.id})) else l
  }

  /** The ledger is ready for an event: it excuses the request, and does not know its id. */
  predicate Covers(l: Ledger, e: Event) {
    e.ScheduleCall? ==>
      (AsksAnyway(e.req) ==> e.req.id in l.anyway) && (l.used.Some? ==> e.req.id !in l.used.value)
  }

  lemma AddedRecords(s: State, s1: State, req: Request, l: Ledger)
    requires Recorded(s, l) && Covers(l, ScheduleCall(req)) && s1.tasks.Keys == s.tasks.Keys + {req.id}
    requires s1 == s.(tasks := s1.tasks) && forall id <- s.tasks :: id != req.id ==> s1.tasks[id] == s.tasks[id]
    ensures Recorded(s1, Noted(l, ScheduleCall(req)))
  {
  }

  lemma NotedMore(s: State, l: Ledger, e: Event)
    requires Recorded(s, l)
    ensures Recorded(s, Noted(l, e))
  {
  }

  /** A newcomer on the starting route bypasses, is unblocked, or has asked to run anyway. */
  lemma NewcomerMayBeRecorded(s1: State, own: Request, l: Ledger)
    requires Core(s1, Some(own.id)) && own.id in s1.tasks && s1.tasks[own.id].job == own.job
    requires GoesToStart(s1, own) && (AsksAnyway(own) ==> own.id in l.anyway)
    ensures MayBeRecorded(s1, own.id, l)
  {
    if !own.job.bypass && Blockers(s1, own.job) == [] {
      UnblockedRespects(s1, own.id);
    }
  }

  lemma NewcomerRecords(s: State, s1: State, own: Request, l: Ledger)
    requires Sound(s, false) && Adds(s, s1, own.id, own.job) && Recorded(s1, l)
    requires GoesToStart(s1, own) && (AsksAnyway(own) ==> own.id in l.anyway)
    ensures Recorded(Start(s1, own.id).0, l)
  {
    AddedIsGood(s, s1, own.id, own.job, false);
    NewcomerMayStart(s, s1, own, false);
    NewcomerMayBeRecorded(s1, own, l);
    StartRecords(s1, own.id, l);
  }

  /** A request that does not start is queued or given up. */
  lemma TurnedAwayIsQuiet(s1: State, own: Request)
    requires own.id in s1.tasks && s1.tasks[own.id].status == Queued && !GoesToStart(s1, own)
    ensures Quiet(s1, Decided(s1, own).0)
  {
    TurnedAwayAs(s1, own);
    RequeuedIsQuiet(s1, own.id);
  }

  lemma TurnedAwayAs(s1: State, own: Request)
    requires own.id in s1.tasks && s1.tasks[own.id].status == Queued && !GoesToStart(s1, own)
    ensures var r := Decided(s1, own).0;
            r == Enqueued(s1, own.id).0 || r == With(s1, own.id, s1.tasks[own.id].(status := Cancelled))
  {
  }

  lemma ScheduleRecords(s: State, req: Request, l: Ledger)
    requires Sound(s, false) && Fresh(s, req.id) && Recorded(s, l) && Covers(l, ScheduleCall(req))
    ensures Recorded(Schedule(s, req).0, Noted(l, ScheduleCall(req)))
  {
    if req.risky && !req.force {
      NotedMore(s, l, ScheduleCall(req));
      return;
    }
    var own := req.(job := req.job.(external := false));
    var s1, noted := With(s, own.id, NewTask(own.job)), Noted(l, ScheduleCall(req));
    AddedRecords(s, s1, req, l);
    if GoesToStart(s1, own) {
      NewcomerRecords(s, s1, own, noted);
    } else {
      TurnedAwayIsQuiet(s1, own);
      QuietKeeps(s1, Decided(s1, own).0, noted);
    }
  }

  /** A task ends, and its host's queue is pumped. */
  lemma EndRecords(s: State, s1: State, id: TaskId, l: Ledger)
    requires Good(s, None, false) && Recorded(s, l) && Ends(s, s1, id)
    ensures Recorded(Pump(s1, s.tasks[id].job.host), l)
  {
    EndKeeps(s, s1, id, false);
    QuietKeeps(s, s1, l);
    PumpRecords(s1, s.tasks[id].job.host, l);
  }

  lemma CancelRecords(s: State, id: TaskId, accepted: bool, l: Ledger)
    requires Good(s, None, false) && Recorded(s, l)
    ensures Recorded(Cancel(s, id, accepted).0, l)
  {
    if id in s.tasks && (s.tasks[id].status == Running || s.tasks[id].status == Queued) {
      if s.tasks[id].status == Running && !accepted {
        RefusedCancelShape(s, id);
        QuietKeeps(s, Cancel(s, id, false).0, l);
      } else {
        SettledEnds(s, id, Cancelled, s.tasks[id].exitCode);
        EndRecords(s, Settled(s, id, Cancelled, s.tasks[id].exitCode), id, l);
      }
    }
  }

  lemma ExternalEndRecords(s: State, id: TaskId, status: Status, code: int, l: Ledger)
    requires Good(s, None, false) && Recorded(s, l) && IsFinished(status)
    ensures Recorded(FinishExternal(s, id, status, code), l)
  {
    if id in s.tasks && s.tasks[id].status == Running {
      var s1 := With(s, id, s.tasks[id].(status := status, finishedAt := Some(s.now), exitCode := Some(code)))
                .(locks := ReleasedForTask(s.locks, id), lockIds := s.lockIds - {id});
      assert Ends(s, s1, id);
      EndRecords(s, s1, id, l);
    }
  }

  lemma DequeueIsQuiet(s: State, id: TaskId)
    ensures Quiet(s, Dequeue(s, id).0)
  {
    if id in s.tasks && s.tasks[id].status == Queued {
      RenumberedIsQuiet(With(s, id, s.tasks[id].(status := Cancelled)), s.tasks[id].job.host);
    }
  }

  lemma ExternalIsQuiet(s: State, id: TaskId, job: Job)
    ensures Quiet(s, RegisterExternal(s, id, job))
  {
  }

  lemma OthersAreQuiet(s: State, e: Event)
    requires Legal(s, e) && (e.ExternalStart? || e.RenewTick? || e.ClockMoves? || e.Evict?)
    ensures Quiet(s, Step(s, e))
  {
    if e.ExternalStart? {
      ExternalIsQuiet(s, e.id, e.job);
    }
  }

  lemma StepRecords(s: State, e: Event, l: Ledger)
    requires Sound(s, false) && Legal(s, e) && Recorded(s, l) && Covers(l, e)
    ensures Recorded(Step(s, e), Noted(l, e))
  {
    match e
    case ScheduleCall(req) => ScheduleRecords(s, req, l);
    case RunnerReport(id, code) => FinishRecords(s, id, code, l);
    case CancelCall(id, accepted) => CancelRecords(s, id, accepted, l);
    case DequeueCall(id) =>
      DequeueIsQuiet(s, id);
      QuietKeeps(s, Dequeue(s, id).0, l);
    case ExternalEnd(id, status, code) => ExternalEndRecords(s, id, status, code, l);
    case _ =>
      OthersAreQuiet(s, e);
      QuietKeeps(s, Step(s, e), l);
  }

  // ---------------------------------------------------------------- every run

  /** No two requests of a run have the same id. */
  ghost predicate DistinctRequests(es: seq<Event>) {
    forall i, j :: 0 <= i < j < |es| && es[i].ScheduleCall? && es[j].ScheduleCall? ==> es[i].req.id != es[j].req.id
  }

  ghost predicate CoversRun(l: Ledger, es: seq<Event>) {
    && (forall e <- es :: Covers(l, e))
    && (l.used.Some? ==> DistinctRequests(es))
  }

  lemma CoversRest(l: Ledger, es: seq<Event>)
    requires es != [] && CoversRun(l, es)
    ensures Covers(l, es[0]) && CoversRun(Noted(l, es[0]), es[1..])
  {
    assert es[0] in es;
    forall e <- es[1..] ensures Covers(Noted(l, es[0]), e) {
      var i :| 0 <= i < |es[1..]| && es[1..][i] == e;
      assert e == es[i + 1] && e in es;
    }
  }

  function NotedAll(l: Ledger, es: seq<Event>): Ledger
    decreases |es|
  {
    if es == [] then l else NotedAll(Noted(l, es[0]), es[1..])
  }

  lemma {:induction false} RunRecords(s: State, es: seq<Event>, l: Ledger)
    requires Sound(s, false) && LegalRun(s, es) && Recorded(s, l) && CoversRun(l, es)
    ensures Recorded(Run(s, es), NotedAll(l, es))
    decreases |es|
  {
    if es != [] {
      CoversRest(l, es);
      StepRecords(s, es[0], l);
      StepKeeps(s, es[0], false);
      RunRecords(Step(s, es[0]), es[1..], Noted(l, es[0]));
    }
  }

  lemma {:induction false} NotedKeepsKind(l: Ledger, es: seq<Event>)
    ensures NotedAll(l, es).anyway == l.anyway && (NotedAll(l, es).used.Some? <==> l.used.Some?)
    decreases |es|
  {
    if es != [] {
      NotedKeepsKind(Noted(l, es[0]), es[1..]);
    }
  }

  /** In a run whose requests have ids of their own, the scheduler starts no task twice. */
  lemma StartedOnce(limits: Limits, start: Time, es: seq<Event>)
    requires Possible(limits, start, es) && DistinctRequests(es)
    ensures var h := Reached(limits, start, es).history;
            forall i, j :: 0 <= i < j < |h| ==> h[i].task != h[j].task
  {
    var everyone := set e | e in es && e.ScheduleCall? :: e.req.id;
    var l := Ledger(everyone, Some({}));
    EmptyIsSound(limits, start);
    assert Sound(Empty(limits, start), false);
    RunRecords(Empty(limits, start), es, l);
    NotedKeepsKind(l, es);
  }

  /**
   Whoever started against the rules of its cost class asked for it: a task that took part in scheduling and whose
   request did not ask, and was not by its cost taken, to run anyway started as its blockers allow.
   */
  lemma RulesBrokenOnRequest(limits: Limits, start: Time, es: seq<Event>)
    requires Possible(limits, start, es)
    ensures forall r <- Reached(limits, start, es).history ::
              || Respects(r, limits)
              || exists e <- es :: e.ScheduleCall? && e.req.id == r.task && AsksAnyway(e.req)
  {
    var l := Ledger(set e | e in es && e.ScheduleCall? && AsksAnyway(e.req) :: e.req.id, None);
    EmptyIsSound(limits, start);
    assert Sound(Empty(limits, start), false);
    RunRecords(Empty(limits, start), es, l);
    NotedKeepsKind(l, es);
    LimitsStay(Empty(limits, start), es);
  }
}
