/**
 What every caller of the scheduler is told, as tables over what can be seen of
 the state: who stands in the way, which answer a request gets, and what a
 cancellation, a withdrawal and a report from outside leave behind.
 */
module SchedulerAnswers {
  import opened Base
  import opened LockTables
  import opened SchedulerModel
  import opened SchedulerInvariants
  import opened SchedulerRuns
  import opened SchedulerOutcomes
  import opened SchedulerTheorems

  // ---------------------------------------------------------------- who stands in the way

  /** Bypassing tasks are not counted; external ones are. */
  predicate CompetesOn(s: State, x: TaskId, host: HostId) {
    x in s.tasks && s.tasks[x].status == Running && !s.tasks[x].job.bypass && s.tasks[x].job.host == host
  }

  function CompetitorsOn(s: State, host: HostId): set<TaskId> {
    set x | x in s.tasks && CompetesOn(s, x, host)
  }

  /** Large and exclusive jobs look at the locks on their host and their directory, and then at nothing else. */
  predicate SeesLocks(s: State, j: Job) {
    && (j.cost == Large || j.cost == Exclusive) && j.cwd.Some?
    && (LockKey(HostScope, j.host, j.host) in s.locks.locks || LockKey(WorkdirScope, j.host, j.cwd.value) in s.locks.locks)
  }

  /** The task `x` is a reason not to start the job `j` now. */
  ghost predicate StandsInWay(s: State, j: Job, x: TaskId) {
    if SeesLocks(s, j) then
      Holds(s, x, LockKey(HostScope, j.host, j.host)) || Holds(s, x, LockKey(WorkdirScope, j.host, j.cwd.value))
    else
      && CompetesOn(s, x, j.host)
      && match j.cost
         case Tiny => s.tasks[x].job.cost == Exclusive
         case Small => |CompetitorsOn(s, j.host)| >= s.limits.maxTotalRunning
         case Medium => |CompetitorsOn(s, j.host)| >= s.limits.maxTotalRunning
         case Large => s.tasks[x].job.cost == Large || s.tasks[x].job.cost == Exclusive
         case Exclusive => true
  }

  lemma OwnersAre(s: State, held: seq<Lock>, x: TaskId)
    requires LocksOwned(s) && forall l <- held :: l.at in s.locks.locks && s.locks.locks[l.at] == l
    ensures x in OwnersOf(s.tasks, held) <==> exists l <- held :: l.ownerTask == Some(x)
  {
    if held != [] {
      assert held[0] in held;
      OwnersAre(s, held[1..], x);
      assert held == [held[0]] + held[1..];
    }
  }

  lemma LockBlockersAre(s: State, j: Job, x: TaskId)
    requires LocksOwned(s) && SeesLocks(s, j)
    ensures LockConflicts(s.locks, j) != []
    ensures x in OwnersOf(s.tasks, LockConflicts(s.locks, j)) <==> StandsInWay(s, j, x)
  {
    var held := LockConflicts(s.locks, j);
    var host, dir := LockKey(HostScope, j.host, j.host), LockKey(WorkdirScope, j.host, j.cwd.value);
    assert held == AtKey(s.locks, host) + AtKey(s.locks, dir);
    assert forall l :: l in held <==> l in AtKey(s.locks, host) || l in AtKey(s.locks, dir);
    OwnersAre(s, held, x);
    assert host in s.locks.locks ==> s.locks.locks[host] in held;
    assert dir in s.locks.locks ==> s.locks.locks[dir] in held;
  }

  lemma CompetitorsCount(s: State, host: HostId, pending: Option<TaskId>)
    requires Core(s, pending)
    ensures forall x :: x in Picked(Ids(s.running, host), Competing(s)) <==> CompetesOn(s, x, host)
    ensures |Picked(Ids(s.running, host), Competing(s))| == |CompetitorsOn(s, host)|
  {
    var nonBypass := Picked(Ids(s.running, host), Competing(s));
    forall x ensures x in nonBypass <==> CompetesOn(s, x, host) {
    }
    DistinctCount(nonBypass);
    assert Elements(nonBypass) == CompetitorsOn(s, host);
  }

  /** The blockers found for a job are exactly the tasks that stand in its way. */
  lemma BlockersAre(s: State, j: Job, x: TaskId, pending: Option<TaskId>)
    requires Core(s, pending)
    ensures x in Blockers(s, j) <==> StandsInWay(s, j, x)
  {
    var ids := Ids(s.running, j.host);
    if SeesLocks(s, j) {
      LockBlockersAre(s, j, x);
      ConflictsBlock(s, j, pending);
    } else {
      assert LockConflicts(s.locks, j) == [];
      CompetitorsCount(s, j.host, pending);
    }
  }

  // ---------------------------------------------------------------- the answer to a request

  /** An exclusive job needs the lock on its host, and any other the one on its directory if it changes that. */
  predicate LockTaken(s: State, j: Job) {
    if j.cost == Exclusive then LockKey(HostScope, j.host, j.host) in s.locks.locks
    else j.mutates && j.cwd.Some? && LockKey(WorkdirScope, j.host, j.cwd.value) in s.locks.locks
  }

  ghost predicate Blocked(s: State, j: Job) {
    exists x <- s.tasks :: StandsInWay(s, j, x)
  }

  ghost predicate BlockedByExclusive(s: State, j: Job) {
    exists x <- s.tasks :: StandsInWay(s, j, x) && s.tasks[x].job.cost == Exclusive
  }

  function IfStarted(s: State, j: Job): Action {
    if LockTaken(s, j) then WasQueued else RunNow
  }

  function IfQueued(s: State, j: Job): Action {
    if |Ids(s.queued, j.host)| < s.limits.maxQueueSize then WasQueued else Rejected
  }

  /** What a blocked request gets by its choice, or by its cost if it made none. */
  function Chosen(ifBusy: Option<IfBusy>, cost: Cost, exclusive: bool, started: Action, queued: Action): Action {
    match ifBusy
    case Some(Fail) => Rejected
    case Some(Wait) => WaitRecommended
    case Some(Queue) => queued
    case Some(RunAnyway) => if exclusive then queued else started
    case None =>
      match cost
      case Tiny => if exclusive then queued else started
      case Small => if exclusive then queued else started
      case Medium => queued
      case Large => queued
      case Exclusive => queued
  }

  /** The whole table of answers. */
  ghost function Answer(s: State, req: Request): Action {
    var j := req.job;
    if req.risky && !req.force then NeedsConfirmation
    else if j.bypass || !Blocked(s, j) then IfStarted(s, j)
    else Chosen(req.ifBusy, j.cost, BlockedByExclusive(s, j), IfStarted(s, j), IfQueued(s, j))
  }

  /** The request as it is recorded: not external, whatever it said. */
  function Own(req: Request): Request {
    req.(job := req.job.(external := false))
  }

  function Recorded(s: State, req: Request): State {
    With(s, req.id, NewTask(Own(req).job))
  }

  lemma RecordingIsGood(s: State, req: Request)
    requires Sound(s, false) && Fresh(s, req.id)
    ensures var s1, j := Recorded(s, req), Own(req).job;
            && Core(s1, Some(req.id)) && s1.tasks[req.id] == NewTask(j)
            && req.id !in Ids(s1.queued, j.host)
            && s1.locks == s.locks && s1.queued == s.queued && s1.limits == s.limits
            && (LockFree(s1, j) <==> !LockTaken(s, req.job))
  {
    AddedIsGood(s, Recorded(s, req), req.id, Own(req).job, false);
  }

  lemma RecordingHidesNothing(s: State, req: Request, x: TaskId)
    requires LocksOwned(s) && Fresh(s, req.id)
    ensures var s1, j := Recorded(s, req), Own(req).job;
            && (StandsInWay(s1, j, x) <==> StandsInWay(s, req.job, x))
            && (StandsInWay(s1, j, x) ==> x in s.tasks && s1.tasks[x] == s.tasks[x])
  {
    var s1, j := Recorded(s, req), Own(req).job;
    assert SeesLocks(s1, j) == SeesLocks(s, req.job);
    if !SeesLocks(s, req.job) {
      assert CompetitorsOn(s1, j.host) == CompetitorsOn(s, j.host);
    }
  }

  /** The blockers the request is decided by, and whether one of them is exclusive. */
  lemma BlockersSeen(s: State, req: Request)
    requires Sound(s, false) && Fresh(s, req.id)
    ensures var s1, j := Recorded(s, req), Own(req).job;
            && (forall x :: x in Blockers(s1, j) <==> StandsInWay(s, req.job, x))
            && (Blockers(s1, j) == [] <==> !Blocked(s, req.job))
            && ((exists b <- Blockers(s1, j) :: b in s1.tasks && s1.tasks[b].job.cost == Exclusive)
                <==> BlockedByExclusive(s, req.job))
  {
    var s1, j := Recorded(s, req), Own(req).job;
    RecordingIsGood(s, req);
    forall x
      ensures x in Blockers(s1, j) <==> StandsInWay(s, req.job, x)
      ensures StandsInWay(s, req.job, x) ==> x in s.tasks && s1.tasks[x] == s.tasks[x]
    {
      RecordingHidesNothing(s, req, x);
      BlockersAre(s1, j, x, Some(req.id));
    }
    if Blockers(s1, j) != [] {
      assert Blockers(s1, j)[0] in Blockers(s1, j);
    }
  }

  lemma StartSays(s1: State, id: TaskId, blockers: seq<TaskId>)
    requires Core(s1, Some(id)) && id in s1.tasks && s1.tasks[id].status == Queued
    ensures StartOrQueue(s1, id, blockers).1 ==
            Decision(if LockFree(s1, s1.tasks[id].job) then RunNow else WasQueued, Some(id), blockers)
  {
    LockOutcome(s1, id);
  }

  lemma EnqueueSays(s1: State, id: TaskId)
    requires id in s1.tasks
    ensures Enqueued(s1, id).1 <==> IfQueued(s1, s1.tasks[id].job) == WasQueued
  {
  }

  /** What is done with a blocked request is what the table says of its choice and its cost. */
  lemma EffectiveIs(tasks: map<TaskId, Task>, own: Request, blockers: seq<TaskId>, started: Action, queued: Action)
    ensures var exclusive := exists b <- blockers :: b in tasks && tasks[b].job.cost == Exclusive;
            Chosen(own.ifBusy, own.job.cost, exclusive, started, queued) ==
            match EffectiveIfBusy(tasks, own, blockers)
            case RunAnyway => started
            case Fail => Rejected
            case Wait => WaitRecommended
            case Queue => queued
  {
  }

  /** A blocked request, in terms of the blockers found. */
  lemma BlockedIs(s1: State, own: Request)
    requires own.id in s1.tasks && s1.tasks[own.id] == NewTask(own.job)
    requires StartOrQueue(s1, own.id, Blockers(s1, own.job)).1.action == IfStarted(s1, own.job)
    requires Blockers(s1, own.job) != []
    ensures var blockers := Blockers(s1, own.job);
            var exclusive := exists b <- blockers :: b in s1.tasks && s1.tasks[b].job.cost == Exclusive;
            Decided(s1, own).1.action ==
            Chosen(own.ifBusy, own.job.cost, exclusive, IfStarted(s1, own.job), IfQueued(s1, own.job))
  {
    EffectiveIs(s1.tasks, own, Blockers(s1, own.job), IfStarted(s1, own.job), IfQueued(s1, own.job));
    EnqueueSays(s1, own.id);
  }

  lemma DecidedListsBlockers(s1: State, own: Request)
    requires own.id in s1.tasks && s1.tasks[own.id].status == Queued
    ensures Decided(s1, own).1.blockers == Blockers(s1, own.job)
    ensures Blockers(s1, own.job) == [] ==> Decided(s1, own).1 == StartOrQueue(s1, own.id, []).1
  {
  }

  ghost predicate Answered(s: State, req: Request, d: Decision) {
    && d.action == Answer(s, req)
    && (forall x :: x in d.blockers <==>
          d.action != NeedsConfirmation && !req.job.bypass && StandsInWay(s, req.job, x))
  }

  /** From what is found in the state with the newcomer to what could be seen in the state before. */
  lemma SeenBefore(s: State, req: Request, d: Decision, exclusive: bool)
    requires !req.job.bypass && (req.risky ==> req.force)
    requires forall x :: x in d.blockers <==> StandsInWay(s, req.job, x)
    requires d.blockers == [] <==> !Blocked(s, req.job)
    requires exclusive == BlockedByExclusive(s, req.job)
    requires d.action ==
             if d.blockers == [] then IfStarted(s, req.job)
             else Chosen(req.ifBusy, req.job.cost, exclusive, IfStarted(s, req.job), IfQueued(s, req.job))
    ensures Answered(s, req, d)
  {
  }

  lemma RecordedStarts(s: State, req: Request, blockers: seq<TaskId>)
    requires Sound(s, false) && Fresh(s, req.id)
    ensures var s1, j := Recorded(s, req), Own(req).job;
            && IfStarted(s1, j) == IfStarted(s, req.job) && IfQueued(s1, j) == IfQueued(s, req.job)
            && StartOrQueue(s1, req.id, blockers).1.action == IfStarted(s, req.job)
  {
    RecordingIsGood(s, req);
    StartSays(Recorded(s, req), req.id, blockers);
  }

  lemma DecidedActs(s: State, req: Request)
    requires Sound(s, false) && Fresh(s, req.id)
    ensures var s1, own := Recorded(s, req), Own(req);
            var blockers, d := Blockers(s1, own.job), Decided(s1, own).1;
            var exclusive := exists b <- blockers :: b in s1.tasks && s1.tasks[b].job.cost == Exclusive;
            && d.blockers == blockers
            && d.action ==
               if blockers == [] then IfStarted(s, req.job)
               else Chosen(req.ifBusy, req.job.cost, exclusive, IfStarted(s, req.job), IfQueued(s, req.job))
  {
    var s1, own := Recorded(s, req), Own(req);
    DecidedListsBlockers(s1, own);
    RecordedStarts(s, req, Blockers(s1, own.job));
    if Blockers(s1, own.job) != [] {
      BlockedIs(s1, own);
    }
  }

  lemma DecidedAnswers(s: State, req: Request)
    requires Sound(s, false) && Fresh(s, req.id) && !req.job.bypass && (req.risky ==> req.force)
    ensures Answered(s, req, Decided(Recorded(s, req), Own(req)).1)
  {
    var s1, own := Recorded(s, req), Own(req);
    BlockersSeen(s, req);
    DecidedActs(s, req);
    SeenBefore(s, req, Decided(s1, own).1,
               exists b <- Blockers(s1, own.job) :: b in s1.tasks && s1.tasks[b].job.cost == Exclusive);
  }

  lemma BypassAnswers(s: State, req: Request)
    requires Sound(s, false) && Fresh(s, req.id) && req.job.bypass && (req.risky ==> req.force)
    ensures Answered(s, req, StartOrQueue(Recorded(s, req), req.id, []).1)
  {
    RecordingIsGood(s, req);
    StartSays(Recorded(s, req), req.id, []);
  }

  /** What a caller is told of a request, and whom it is told of. */
  lemma ScheduleAnswers(s: State, req: Request)
    requires Sound(s, false) && Fresh(s, req.id)
    ensures Answered(s, req, Schedule(s, req).1)
  {
    if req.risky && !req.force {
    } else if req.job.bypass {
      BypassAnswers(s, req);
    } else {
      DecidedAnswers(s, req);
    }
  }

  /** In every reachable state. */
  lemma RequestIsAnswered(limits: Limits, start: Time, es: seq<Event>, req: Request)
    requires Possible(limits, start, es) && Fresh(Reached(limits, start, es), req.id)
    ensures Answered(Reached(limits, start, es), req, Schedule(Reached(limits, start, es), req).1)
  {
    ReachedIsSound(limits, start, es, false);
    ScheduleAnswers(Reached(limits, start, es), req);
  }

  /** In every reachable state, the blockers of a job are the tasks that stand in its way. */
  lemma BlockersAreKnown(limits: Limits, start: Time, es: seq<Event>, j: Job, x: TaskId)
    requires Possible(limits, start, es)
    ensures x in Blockers(Reached(limits, start, es), j) <==> StandsInWay(Reached(limits, start, es), j, x)
  {
    ReachedIsSound(limits, start, es, false);
    BlockersAre(Reached(limits, start, es), j, x, None);
  }

  // ---------------------------------------------------------------- the answers to the other calls

  /**
   A cancellation succeeds exactly for a waiting task and for a running one whose runner lets it be stopped. The
   task is then cancelled, its exit code as it was; a refused one leaves its task running where it was.
   */
  lemma CancelTells(s: State, id: TaskId, accepted: bool)
    requires Sound(s, false)
    ensures var (r, ok) := Cancel(s, id, accepted);
            && (ok <==> id in s.tasks && (s.tasks[id].status == Queued || (s.tasks[id].status == Running && accepted)))
            && (ok ==>
                  && OthersUntouched(s, r, id, s.tasks[id].job.host)
                  && r.tasks[id] == s.tasks[id].(status := Cancelled, finishedAt := Some(s.now)))
            && (!ok && id in s.tasks && s.tasks[id].status == Running ==>
                  && r == s.(tasks := s.tasks[id := s.tasks[id].(finishedAt := None)], running := r.running)
                  && forall h, u :: u in Ids(r.running, h) <==> u in Ids(s.running, h))
            && (!ok && !(id in s.tasks && s.tasks[id].status == Running) ==> r == s)
  {
    if id in s.tasks && (s.tasks[id].status == Queued || (s.tasks[id].status == Running && accepted)) {
      CancelledFrame(s, id);
    } else if id in s.tasks && s.tasks[id].status == Running {
      RefusedCancelShape(s, id);
    }
  }

  lemma CancelledFrame(s: State, id: TaskId)
    requires id in s.tasks
    ensures var r := Pump(Settled(s, id, Cancelled, s.tasks[id].exitCode), s.tasks[id].job.host);
            && OthersUntouched(s, r, id, s.tasks[id].job.host)
            && r.tasks[id] == s.tasks[id].(status := Cancelled, finishedAt := Some(s.now))
  {
    SettledFrame(s, id, Cancelled, s.tasks[id].exitCode);
    PumpFrame(Settled(s, id, Cancelled, s.tasks[id].exitCode), s.tasks[id].job.host);
  }

  /** A withdrawal succeeds exactly for a waiting task, which is cancelled; of the others only positions change. */
  lemma DequeueTells(s: State, id: TaskId)
    ensures var (r, ok) := Dequeue(s, id);
            && (ok <==> id in s.tasks && s.tasks[id].status == Queued)
            && (ok ==>
                  && SameButPositions(s.tasks, r.tasks[id := s.tasks[id]])
                  && r.tasks[id] == s.tasks[id].(status := Cancelled) && r == s.(tasks := r.tasks))
            && (!ok ==> r == s)
  {
    if id in s.tasks && s.tasks[id].status == Queued {
      RenumberEffect(With(s, id, s.tasks[id].(status := Cancelled)), s.tasks[id].job.host);
    }
  }

  /** A task registered from outside runs from now on, whatever it needs; no other record changes. */
  lemma ExternalStartTells(s: State, id: TaskId, job: Job)
    requires Sound(s, false) && Fresh(s, id)
    ensures var r := RegisterExternal(s, id, job);
            && r.tasks == s.tasks[id := Task(job.(external := true), Running, None, None, Some(s.now), None, None)]
            && id in Ids(r.running, job.host) && r.history == s.history
  {
    var ext := job.(external := true);
    var s1 := Indexed(With(s, id, NewTask(ext).(status := Running, startedAt := Some(s.now))), id);
    ExternalIsGood(s, s1, id, ext, false);
    LockOutcome(s1, id);
  }

  /** The end of an external task settles it as it is told, releases its locks, and pumps its host. */
  lemma ExternalEndTells(s: State, id: TaskId, status: Status, code: int)
    requires id in s.tasks && s.tasks[id].status == Running && IsFinished(status)
    ensures var r := FinishExternal(s, id, status, code);
            && OthersUntouched(s, r, id, s.tasks[id].job.host)
            && r.tasks[id] == s.tasks[id].(status := status, finishedAt := Some(s.now), exitCode := Some(code))
  {
    var host := s.tasks[id].job.host;
    var s1 := With(s, id, s.tasks[id].(status := status, finishedAt := Some(s.now), exitCode := Some(code)))
              .(locks := ReleasedForTask(s.locks, id), lockIds := s.lockIds - {id});
    assert WaitingOn(s1, host) == WaitingOn(s, host);
    PumpFrame(s1, host);
  }

  // ---------------------------------------------------------------- the order of the queue

  /** Tasks queued at the same moment stay in the order of the index. */
  lemma {:induction false} SortIsStable(tasks: map<TaskId, Task>, ids: seq<TaskId>, at: Time, these: set<TaskId>)
    requires forall id <- ids :: id in these <==> QueueKey(tasks, id) == at
    ensures Picked(SortByQueuedAt(tasks, ids), these) == Picked(ids, these)
  {
    if ids != [] {
      var rest := SortByQueuedAt(tasks, ids[1..]);
      forall id | id in ids[1..] ensures id in these <==> QueueKey(tasks, id) == at {
        assert id in ids;
      }
      SortIsStable(tasks, ids[1..], at, these);
      SameElements(rest, ids[1..]);
      forall id | id in [ids[0]] + rest ensures id in these <==> QueueKey(tasks, id) == at {
        assert id == ids[0] || id in ids[1..];
      }
      InsertIsStable(tasks, ids[0], rest, at, these);
      PickedHead(ids[0], rest, ids[1..], these);
    }
  }

  lemma PickedHead(id: TaskId, a: seq<TaskId>, b: seq<TaskId>, these: set<TaskId>)
    requires Picked(a, these) == Picked(b, these)
    ensures Picked([id] + a, these) == Picked([id] + b, these)
  {
    assert ([id] + a)[1..] == a && ([id] + b)[1..] == b;
  }

  lemma {:induction false} InsertIsStable(tasks: map<TaskId, Task>, id: TaskId, ids: seq<TaskId>, at: Time, these: set<TaskId>)
    requires forall u <- [id] + ids :: u in these <==> QueueKey(tasks, u) == at
    ensures Picked(Insert(tasks, id, ids), these) == Picked([id] + ids, these)
  {
    assert ([id] + ids)[1..] == ids && id in [id] + ids;
    if !(ids == [] || QueueKey(tasks, id) <= QueueKey(tasks, ids[0])) {
      assert ids[0] in [id] + ids;
      assert forall u <- [id] + ids[1..] :: u in [id] + ids;
      InsertIsStable(tasks, id, ids[1..], at, these);
      assert ([id] + ids[1..])[1..] == ids[1..];
    }
  }
}
