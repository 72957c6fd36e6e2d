/**
 The shared-host scheduler (src/scheduler/scheduler-service.ts) as functions on
 the value of its state: what each public call and each runner report does.
 One event is one synchronous step, and the clock stands still within it.
 */
module SchedulerModel {
  import opened Base
  import opened LockTables

  datatype Cost = Tiny | Small | Medium | Large | Exclusive

  datatype Status = Queued | Running | Completed | Failed | Cancelled | TimedOut | Stale

  /**
   What the task's runner does when it is started: carry on, or report an exit
   code before the call returns (by throwing, or by closing at once).
   */
  datatype Launch = StaysRunning | ReportsAtOnce(code: int)

  /** What a request fixes for good; `cwd` is None when the source's field is undefined or empty. */
  datatype Job = Job(
    agent: AgentId, host: HostId, cwd: Option<Path>, cost: Cost, mutates: bool,
    bypass: bool, external: bool, launch: Launch)

  datatype Task = Task(
    job: Job, status: Status, queuedAt: Option<Time>, queuePosition: Option<nat>,
    startedAt: Option<Time>, finishedAt: Option<Time>, exitCode: Option<int>)

  predicate Distinct(ids: seq<TaskId>) {
    forall i, j :: 0 <= i < j < |ids| ==> ids[i] != ids[j]
  }

  /** A set of ids with its insertion order. */
  type IdSet = ids: seq<TaskId> | Distinct(ids)

  /** Per host, the ids indexed under it; a host with none has no entry. */
  type Index = map<HostId, IdSet>

  datatype Limits = Limits(maxQueueSize: int, maxTotalRunning: int)

  /**
   One entry per task started by the scheduler: the non-bypass tasks that ran on
   the host just before, and the startable tasks queued earlier that it overtook.
   */
  datatype StartRecord = StartRecord(task: TaskId, job: Job, beside: seq<Job>, overtaken: set<TaskId>)

  datatype State = State(
    limits: Limits,
    tasks: map<TaskId, Task>, running: Index, queued: Index,
    lockIds: map<TaskId, seq<LockId>>, locks: LockTable,
    now: Time, lastRenew: Time,
    history: seq<StartRecord>)

  function Empty(limits: Limits, now: Time): State {
    State(limits, map[], map[], map[], map[], EMPTY_TABLE, now, now, [])
  }

  // ---------------------------------------------------------------- indexes

  function Ids(ix: Index, host: HostId): IdSet {
    if host in ix then ix[host] else []
  }

  function AddId(ix: Index, host: HostId, id: TaskId): Index {
    if id in Ids(ix, host) then ix else ix[host := Ids(ix, host) + [id]]
  }

  /** The elements of `ids` that are in `chosen`, in order. */
  function Picked(ids: seq<TaskId>, chosen: set<TaskId>): (picked: seq<TaskId>)
    ensures forall id :: id in picked <==> id in ids && id in chosen
    ensures Distinct(ids) ==> Distinct(picked)
  {
    if ids == [] then []
    else
      var rest := Picked(ids[1..], chosen);
      if ids[0] in chosen then [ids[0]] + rest else rest
  }

  function DropId(ix: Index, host: HostId, id: TaskId): Index {
    var left := Picked(Ids(ix, host), (set i <- Ids(ix, host) | i != id));
    if left == [] then ix - {host} else ix[host := left]
  }

  function Indexed(s: State, id: TaskId): State
    requires id in s.tasks
  {
    match s.tasks[id].status
    case Running => s.(running := AddId(s.running, s.tasks[id].job.host, id))
    case Queued => s.(queued := AddId(s.queued, s.tasks[id].job.host, id))
    case _ => s
  }

  function Unindexed(s: State, id: TaskId): State
    requires id in s.tasks
  {
    match s.tasks[id].status
    case Running => s.(running := DropId(s.running, s.tasks[id].job.host, id))
    case Queued => s.(queued := DropId(s.queued, s.tasks[id].job.host, id))
    case _ => s
  }

  function With(s: State, id: TaskId, t: Task): State {
    s.(tasks := s.tasks[id := t])
  }

  // ---------------------------------------------------------------- readers

  function WithStatus(s: State, status: Status): set<TaskId> {
    set id | id in s.tasks && s.tasks[id].status == status
  }

  function Competing(s: State): set<TaskId> {
    set id | id in s.tasks && s.tasks[id].status == Running && !s.tasks[id].job.bypass
  }

  function CompetingHeavy(s: State): set<TaskId> {
    set id | id in Competing(s) && IsHeavy(s.tasks[id].job.cost)
  }

  function CompetingExclusive(s: State): set<TaskId> {
    set id | id in Competing(s) && s.tasks[id].job.cost == Exclusive
  }

  predicate IsHeavy(cost: Cost) {
    cost == Large || cost == Exclusive
  }

  function QueueKey(tasks: map<TaskId, Task>, id: TaskId): Time {
    if id in tasks && tasks[id].queuedAt.Some? then tasks[id].queuedAt.value else 0
  }

  function Insert(tasks: map<TaskId, Task>, id: TaskId, ids: seq<TaskId>): (r: seq<TaskId>)
    ensures multiset(r) == multiset{id} + multiset(ids)
  {
    if ids == [] || QueueKey(tasks, id) <= QueueKey(tasks, ids[0]) then [id] + ids
    else
      assert ids == [ids[0]] + ids[1..];
      [ids[0]] + Insert(tasks, id, ids[1..])
  }

  /** Stable sort by the time of queueing. */
  function SortByQueuedAt(tasks: map<TaskId, Task>, ids: seq<TaskId>): (r: seq<TaskId>)
    ensures multiset(r) == multiset(ids)
  {
    if ids == [] then []
    else
      assert ids == [ids[0]] + ids[1..];
      Insert(tasks, ids[0], SortByQueuedAt(tasks, ids[1..]))
  }

  /** The waiting tasks of a host, in queue order. */
  function QueuedHere(s: State, host: HostId): (q: seq<TaskId>)
    ensures forall id :: id in q <==> id in Ids(s.queued, host) && id in WaitingOn(s, host)
    ensures Distinct(q)
  {
    var waiting := Picked(Ids(s.queued, host), WaitingOn(s, host));
    SameElements(SortByQueuedAt(s.tasks, waiting), waiting);
    SortByQueuedAt(s.tasks, waiting)
  }

  lemma SameElements(a: seq<TaskId>, b: seq<TaskId>)
    requires multiset(a) == multiset(b)
    ensures forall id :: id in a <==> id in b
    ensures Distinct(b) ==> Distinct(a)
  {
    assert forall id :: id in a <==> id in multiset(a);
    assert forall id :: id in b <==> id in multiset(b);
    if i, j :| 0 <= i < j < |a| && a[i] == a[j] {
      RepeatedTwice(a, i, j);
      if Distinct(b) { DistinctOnce(b, a[i]); }
    }
  }

  lemma RepeatedTwice(ids: seq<TaskId>, i: nat, j: nat)
    requires i < j < |ids| && ids[i] == ids[j]
    ensures multiset(ids)[ids[i]] >= 2
  {
    assert ids == ids[..j] + [ids[j]] + ids[j + 1..];
    assert ids[..j][i] == ids[i];
  }

  lemma DistinctOnce(ids: seq<TaskId>, id: TaskId)
    requires Distinct(ids)
    ensures multiset(ids)[id] <= 1
  {
    if ids != [] {
      DistinctOnce(ids[1..], id);
      assert ids == [ids[0]] + ids[1..];
    }
  }

  // ---------------------------------------------------------------- blockers and locks

  /** The lock a task takes when the scheduler starts it. */
  function NeededLock(j: Job): Option<LockKey> {
    if j.cost == Exclusive then Some(LockKey(HostScope, j.host, j.host))
    else if j.mutates && j.cwd.Some? then Some(LockKey(WorkdirScope, j.host, j.cwd.value))
    else None
  }

  /** The owners of the given locks that are known tasks. */
  function OwnersOf(tasks: map<TaskId, Task>, held: seq<Lock>): seq<TaskId> {
    if held == [] then []
    else
      var o := held[0].ownerTask;
      (if o.Some? && o.value in tasks then [o.value] else []) + OwnersOf(tasks, held[1..])
  }

  function LockConflicts(locks: LockTable, j: Job): seq<Lock> {
    if IsHeavy(j.cost) && j.cwd.Some? then ConflictsBelowHost(locks, WorkdirScope, j.cwd.value, j.host) else []
  }

  /** Why a job may not start now: the tasks whose locks or whose running stand in its way. */
  function Blockers(s: State, j: Job): seq<TaskId> {
    var ids := Ids(s.running, j.host);
    var nonBypass := Picked(ids, Competing(s));
    if ids == [] then []
    else if LockConflicts(s.locks, j) != [] then OwnersOf(s.tasks, LockConflicts(s.locks, j))
    else
      match j.cost
      case Tiny => Picked(ids, CompetingExclusive(s))
      case Small => if |nonBypass| >= s.limits.maxTotalRunning then nonBypass else []
      case Medium => if |nonBypass| >= s.limits.maxTotalRunning then nonBypass else []
      case Large => Picked(ids, CompetingHeavy(s))
      case Exclusive => nonBypass
  }

  /**
   The check the queue pump uses: the same question, answered from the host's
   non-bypass tasks and three counts taken once per pass.
   */
  function FastBlockers(s: State, j: Job, nonBypass: seq<TaskId>, count: nat, heavyCount: nat, exclusiveCount: nat): seq<TaskId> {
    var owners := OwnersOf(s.tasks, LockConflicts(s.locks, j));
    if owners != [] then owners
    else if count == 0 then []
    else
      match j.cost
      case Tiny => if exclusiveCount > 0 then Picked(nonBypass, CompetingExclusive(s)) else []
      case Small => if count >= s.limits.maxTotalRunning then nonBypass else []
      case Medium => if count >= s.limits.maxTotalRunning then nonBypass else []
      case Large => if heavyCount > 0 then Picked(nonBypass, CompetingHeavy(s)) else []
      case Exclusive => nonBypass
  }

  predicate LockFree(s: State, j: Job) {
    NeededLock(j).Some? ==> NeededLock(j).value !in s.locks.locks
  }

  predicate Startable(s: State, j: Job) {
    Blockers(s, j) == [] && LockFree(s, j)
  }

  /** `u` was put in the queue before `t`; a task never queued comes after all. */
  predicate QueuedBefore(u: Task, t: Task) {
    u.queuedAt.Some? && (t.queuedAt.Some? ==> u.queuedAt.value < t.queuedAt.value)
  }

  function Overtaken(s: State, id: TaskId): set<TaskId>
    requires id in s.tasks
  {
    set u | u in WaitingOn(s, s.tasks[id].job.host) && u != id
            && QueuedBefore(s.tasks[u], s.tasks[id]) && Startable(s, s.tasks[u].job)
  }

  function JobsOf(tasks: map<TaskId, Task>, ids: seq<TaskId>): (jobs: seq<Job>)
    requires forall id <- ids :: id in tasks
    ensures |jobs| == |ids| && forall i :: 0 <= i < |ids| ==> jobs[i] == tasks[ids[i]].job
  {
    seq(|ids|, i requires 0 <= i < |ids| => tasks[ids[i]].job)
  }

  function RecordOf(s: State, id: TaskId): StartRecord
    requires id in s.tasks
  {
    var j := s.tasks[id].job;
    StartRecord(id, j, JobsOf(s.tasks, Picked(Ids(s.running, j.host), Competing(s))), Overtaken(s, id))
  }

  // ---------------------------------------------------------------- queueing

  function NumberFrom(tasks: map<TaskId, Task>, q: seq<TaskId>, i: nat): map<TaskId, Task>
    requires i <= |q| && forall id <- q :: id in tasks
    ensures NumberFrom(tasks, q, i).Keys == tasks.Keys
    decreases |q| - i
  {
    if i == |q| then tasks
    else NumberFrom(tasks[q[i] := tasks[q[i]].(queuePosition := Some(i + 1))], q, i + 1)
  }

  function Renumbered(s: State, host: HostId): State {
    s.(tasks := NumberFrom(s.tasks, QueuedHere(s, host), 0))
  }

  /** Admission to the queue; the index, not the waiting tasks, is what is counted. */
  function Enqueued(s: State, id: TaskId): (State, bool)
    requires id in s.tasks
  {
    var t := s.tasks[id];
    if |Ids(s.queued, t.job.host)| >= s.limits.maxQueueSize then
      (With(s, id, t.(status := Cancelled)), false)
    else
      var s1 := With(s, id, t.(status := Queued, queuedAt := Some(s.now)));
      (Renumbered(s1.(queued := AddId(s1.queued, t.job.host, id)), t.job.host), true)
  }

  // ---------------------------------------------------------------- start, finish, pump

  /** The tasks waiting on a host: the measure on which start, finish and pump terminate. */
  function WaitingOn(s: State, host: HostId): set<TaskId> {
    set id | id in s.tasks && s.tasks[id].status == Queued && s.tasks[id].job.host == host
  }

  function WithLocks(s: State, id: TaskId): (State, bool)
    requires id in s.tasks
  {
    var t := s.tasks[id];
    match NeededLock(t.job)
    case None => (s, true)
    case Some(at) =>
      var (lt, got) := Acquire(s.locks, at, t.job.agent, Some(id), s.now, DEFAULT_TTL);
      match got
      case None => (s.(locks := lt), false)
      case Some(lock) => (s.(locks := lt, lockIds := s.lockIds[id := [lock.id]]), true)
  }

  function Launched(s: State, id: TaskId, record: StartRecord): State
    requires id in s.tasks
  {
    var s1 := Unindexed(s, id);
    var s2 := With(s1, id, s1.tasks[id].(status := Running, startedAt := Some(s.now)));
    Indexed(s2, id).(history := s.history + [record])
  }

  /** A task that did not get its lock goes back to the queue. */
  function Requeued(s: State, id: TaskId): State
    requires id in s.tasks
  {
    Enqueued(Indexed(s, id), id).0
  }

  function StatusFor(code: int): Status {
    if code == 0 then Completed else Failed
  }

  function Settled(s: State, id: TaskId, status: Status, code: Option<int>): State
    requires id in s.tasks
  {
    var s1 := Unindexed(s, id);
    With(s1, id, s1.tasks[id].(status := status, finishedAt := Some(s.now), exitCode := code))
      .(locks := ReleasedForTask(s.locks, id), lockIds := s.lockIds - {id})
  }

  /** Numbering changes nothing but queue positions. */
  ghost predicate SameButPositions(a: map<TaskId, Task>, b: map<TaskId, Task>) {
    && a.Keys == b.Keys
    && forall id <- a :: a[id].(queuePosition := b[id].queuePosition) == b[id]
  }

  lemma NumberingKeeps(tasks: map<TaskId, Task>, q: seq<TaskId>, i: nat)
    requires i <= |q| && forall id <- q :: id in tasks
    ensures SameButPositions(tasks, NumberFrom(tasks, q, i))
    ensures forall id <- tasks :: id !in q ==> NumberFrom(tasks, q, i)[id] == tasks[id]
    decreases |q| - i
  {
    if i < |q| {
      NumberingKeeps(tasks[q[i] := tasks[q[i]].(queuePosition := Some(i + 1))], q, i + 1);
    }
  }

  /** `r` is `s` with the task records and the queue index replaced. */
  ghost predicate OnlyQueueTouched(s: State, r: State) {
    r == s.(tasks := r.tasks, queued := r.queued)
  }

  lemma RenumberEffect(s: State, host: HostId)
    ensures Renumbered(s, host) == s.(tasks := Renumbered(s, host).tasks)
    ensures SameButPositions(s.tasks, Renumbered(s, host).tasks)
    ensures forall id <- s.tasks :: id !in WaitingOn(s, host) ==> Renumbered(s, host).tasks[id] == s.tasks[id]
  {
    NumberingKeeps(s.tasks, QueuedHere(s, host), 0);
  }

  lemma AdmittedWaiting(s: State, r: State, id: TaskId)
    requires id in s.tasks && r.tasks == s.tasks[id := s.tasks[id].(status := Queued, queuedAt := Some(s.now))]
    ensures WaitingOn(r, s.tasks[id].job.host) == WaitingOn(s, s.tasks[id].job.host) + {id}
  {
  }

  /** Admission when there is room: the record, the index, and then the numbering of the host's queue. */
  lemma AdmissionEffect(s: State, id: TaskId)
    requires id in s.tasks && |Ids(s.queued, s.tasks[id].job.host)| < s.limits.maxQueueSize
    ensures var r := Enqueued(s, id).0; var t := s.tasks[id];
            && r == s.(tasks := r.tasks, queued := AddId(s.queued, t.job.host, id))
            && SameButPositions(s.tasks[id := t.(status := Queued, queuedAt := Some(s.now))], r.tasks)
            && (forall u <- s.tasks :: u != id && u !in WaitingOn(s, t.job.host) ==> r.tasks[u] == s.tasks[u])
  {
    var host := s.tasks[id].job.host;
    var s1 := With(s, id, s.tasks[id].(status := Queued, queuedAt := Some(s.now)));
    var s2 := s1.(queued := AddId(s1.queued, host, id));
    RenumberEffect(s2, host);
    AdmittedWaiting(s, s2, id);
  }

  lemma EnqueueEffect(s: State, id: TaskId)
    requires id in s.tasks
    ensures var (r, ok) := Enqueued(s, id); var t := s.tasks[id];
            && (ok <==> |Ids(s.queued, t.job.host)| < s.limits.maxQueueSize)
            && OnlyQueueTouched(s, r)
            && r.queued == (if ok then AddId(s.queued, t.job.host, id) else s.queued)
            && SameButPositions(
                 s.tasks[id := if ok then t.(status := Queued, queuedAt := Some(s.now)) else t.(status := Cancelled)],
                 r.tasks)
            && (forall u <- s.tasks :: u != id && u !in WaitingOn(s, t.job.host) ==> r.tasks[u] == s.tasks[u])
  {
    if |Ids(s.queued, s.tasks[id].job.host)| < s.limits.maxQueueSize {
      AdmissionEffect(s, id);
    }
  }

  lemma RequeueKeepsWaiting(s: State, id: TaskId)
    requires id in s.tasks && s.tasks[id].status == Queued
    ensures Requeued(s, id).tasks.Keys == s.tasks.Keys && Requeued(s, id).limits == s.limits
    ensures forall h :: WaitingOn(Requeued(s, id), h) <= WaitingOn(s, h)
    ensures forall h, u :: u in WaitingOn(s, h) && u != id ==> u in WaitingOn(Requeued(s, id), h)
  {
    EnqueueEffect(Indexed(s, id), id);
  }

  function Start(s: State, id: TaskId): (r: (State, bool))
    requires id in s.tasks && s.tasks[id].status == Queued
    ensures r.0.tasks.Keys == s.tasks.Keys && r.0.limits == s.limits
    ensures WaitingOn(r.0, s.tasks[id].job.host) <= WaitingOn(s, s.tasks[id].job.host)
    ensures r.1 ==> id !in WaitingOn(r.0, s.tasks[id].job.host)
    ensures !r.1 ==> WaitingOn(s, s.tasks[id].job.host) - {id} <= WaitingOn(r.0, s.tasks[id].job.host)
    decreases WaitingOn(s, s.tasks[id].job.host), 0, 0
  {
    var host := s.tasks[id].job.host;
    var (s1, ok) := WithLocks(s, id);
    if !ok then
      RequeueKeepsWaiting(s1, id);
      (Requeued(s1, id), false)
    else
      var s2 := Launched(s1, id, RecordOf(s, id));
      assert id in WaitingOn(s, host) && id !in WaitingOn(s2, host);
      if s.tasks[id].job.launch.StaysRunning? then (s2, true)
      else (Finish(s2, id, s.tasks[id].job.launch.code), true)
  }

  /** A runner's report; a task already cancelled ignores it. */
  function Finish(s: State, id: TaskId, code: int): (r: State)
    ensures r.tasks.Keys == s.tasks.Keys && r.limits == s.limits
    ensures id in s.tasks ==> WaitingOn(r, s.tasks[id].job.host) <= WaitingOn(s, s.tasks[id].job.host)
    decreases if id in s.tasks then WaitingOn(s, s.tasks[id].job.host) else {}, 3, 0
  {
    if id !in s.tasks || s.tasks[id].status == Cancelled then s
    else
      var s1 := Settled(s, id, StatusFor(code), Some(code));
      assert WaitingOn(s1, s.tasks[id].job.host) <= WaitingOn(s, s.tasks[id].job.host);
      Pump(s1, s.tasks[id].job.host)
  }

  /** One pass over the queue snapshot `q`: starts the first task it can, and says whether it did. */
  function Scan(s: State, host: HostId, q: seq<TaskId>): (r: (State, bool))
    requires forall id <- q :: id in WaitingOn(s, host)
    requires forall i, j :: 0 <= i < j < |q| ==> q[i] != q[j]
    ensures r.0.tasks.Keys == s.tasks.Keys && r.0.limits == s.limits
    ensures WaitingOn(r.0, host) <= WaitingOn(s, host)
    ensures r.1 ==> WaitingOn(r.0, host) < WaitingOn(s, host)
    decreases WaitingOn(s, host), 1, |q|
  {
    if q == [] then (s, false)
    else
      assert q[0] in q;
      if Blockers(s, s.tasks[q[0]].job) != [] then Scan(s, host, q[1..])
      else
        var (s1, started) := Start(s, q[0]);
        if started then
          assert q[0] in WaitingOn(s, host);
          (With(s1, q[0], s1.tasks[q[0]].(queuePosition := None)), true)
        else
          assert forall u <- q[1..] :: u in WaitingOn(s, host) - {q[0]};
          Scan(s1, host, q[1..])
  }

  /** Drains the queue of a host: passes until one starts nothing. */
  function Pump(s: State, host: HostId): (r: State)
    ensures r.tasks.Keys == s.tasks.Keys && r.limits == s.limits
    ensures WaitingOn(r, host) <= WaitingOn(s, host)
    decreases WaitingOn(s, host), 2, 0
  {
    var (s1, started) := Scan(s, host, QueuedHere(s, host));
    if started then Pump(s1, host)
    else
      NumberingKeeps(s1.tasks, QueuedHere(s1, host), 0);
      Renumbered(s1, host)
  }

  // ---------------------------------------------------------------- public calls

  datatype IfBusy = RunAnyway | Wait | Queue | Fail

  datatype Request = Request(id: TaskId, job: Job, risky: bool, force: bool, ifBusy: Option<IfBusy>)

  datatype Action = RunNow | WasQueued | WaitRecommended | Rejected | NeedsConfirmation

  datatype Decision = Decision(action: Action, taskId: Option<TaskId>, blockers: seq<TaskId>)

  function NewTask(job: Job): Task {
    Task(job, Queued, None, None, None, None, None)
  }

  function DefaultIfBusy(cost: Cost): IfBusy {
    if IsHeavy(cost) || cost == Medium then Queue else RunAnyway
  }

  /** What a request asks for if it is blocked, or what its cost makes of it. */
  function WantedIfBusy(req: Request): IfBusy {
    if req.ifBusy.Some? then req.ifBusy.value else DefaultIfBusy(req.job.cost)
  }

  /** What to do with a blocked request: it does not run anyway if one of the blockers found is exclusive. */
  function EffectiveIfBusy(tasks: map<TaskId, Task>, req: Request, blockers: seq<TaskId>): IfBusy {
    var wanted := WantedIfBusy(req);
    if wanted == RunAnyway && exists b <- blockers :: b in tasks && tasks[b].job.cost == Exclusive
    then Queue else wanted
  }

  function StartOrQueue(s: State, id: TaskId, blockers: seq<TaskId>): (State, Decision)
    requires id in s.tasks && s.tasks[id].status == Queued
  {
    var (s1, started) := Start(s, id);
    (s1, Decision(if started then RunNow else WasQueued, Some(id), blockers))
  }

  /** The fate of a recorded request that takes part in scheduling. */
  function Decided(s: State, req: Request): (State, Decision)
    requires req.id in s.tasks && s.tasks[req.id].status == Queued
  {
    var id, blockers := req.id, Blockers(s, req.job);
    if blockers == [] then StartOrQueue(s, id, [])
    else
      match EffectiveIfBusy(s.tasks, req, blockers)
      case RunAnyway => StartOrQueue(s, id, blockers)
      case Fail => (With(s, id, s.tasks[id].(status := Cancelled)), Decision(Rejected, None, blockers))
      case Wait => (With(s, id, s.tasks[id].(status := Cancelled)), Decision(WaitRecommended, None, blockers))
      case Queue =>
        var (s1, queued) := Enqueued(s, id);
        (s1, if queued then Decision(WasQueued, Some(id), blockers) else Decision(Rejected, None, blockers))
  }

  function Schedule(s: State, req: Request): (State, Decision) {
    if req.risky && !req.force then (s, Decision(NeedsConfirmation, None, []))
    else
      var own := req.(job := req.job.(external := false));
      var s1 := With(s, own.id, NewTask(own.job));
      if own.job.bypass then StartOrQueue(s1, own.id, []) else Decided(s1, own)
  }

  /** `accepted`: the runner could be stopped, or agreed to stop. */
  function Cancel(s: State, id: TaskId, accepted: bool): (State, bool) {
    if id !in s.tasks || (s.tasks[id].status != Running && s.tasks[id].status != Queued) then (s, false)
    else if s.tasks[id].status == Running && !accepted then
      var s1 := With(Unindexed(s, id), id, s.tasks[id].(finishedAt := None));
      (Indexed(s1, id), false)
    else
      (Pump(Settled(s, id, Cancelled, s.tasks[id].exitCode), s.tasks[id].job.host), true)
  }

  /** The status changes first, so the id stays behind in the queue index. */
  function Dequeue(s: State, id: TaskId): (State, bool) {
    if id !in s.tasks || s.tasks[id].status != Queued then (s, false)
    else (Renumbered(With(s, id, s.tasks[id].(status := Cancelled)), s.tasks[id].job.host), true)
  }

  /** A task run elsewhere: it counts as running even when its lock is refused. */
  function RegisterExternal(s: State, id: TaskId, job: Job): State {
    var t := NewTask(job.(external := true)).(status := Running, startedAt := Some(s.now));
    WithLocks(Indexed(With(s, id, t), id), id).0
  }

  /** The status changes first, so the id stays behind in the running index. */
  function FinishExternal(s: State, id: TaskId, status: Status, code: int): State {
    if id !in s.tasks || s.tasks[id].status != Running then s
    else
      var s1 := With(s, id, s.tasks[id].(status := status, finishedAt := Some(s.now), exitCode := Some(code)))
                .(locks := ReleasedForTask(s.locks, id), lockIds := s.lockIds - {id});
      Pump(s1, s.tasks[id].job.host)
  }

  function LockIdsOf(lockIds: map<TaskId, seq<LockId>>): set<LockId> {
    set t, i | t in lockIds && i in lockIds[t] :: i
  }

  function RenewedAll(lt: LockTable, ids: set<LockId>, now: Time): LockTable {
    lt.(locks := map k | k in lt.locks ::
          if lt.locks[k].id in ids then lt.locks[k].(expiresAt := now + DEFAULT_TTL) else lt.locks[k])
  }

  /** The renewal timer: every lock on record for a task gets a full time to live. */
  function Renew(s: State): State {
    s.(locks := RenewedAll(s.locks, LockIdsOf(s.lockIds), s.now), lastRenew := s.now)
  }

  predicate IsFinished(status: Status) {
    status != Queued && status != Running
  }

  datatype Event =
    | ScheduleCall(req: Request)
    | RunnerReport(id: TaskId, code: int)
    | CancelCall(id: TaskId, accepted: bool)
    | DequeueCall(id: TaskId)
    | ExternalStart(id: TaskId, job: Job)
    | ExternalEnd(id: TaskId, status: Status, code: int)
    | RenewTick
    | ClockMoves(now: Time)
    | Evict(ids: set<TaskId>)

  ghost predicate Fresh(s: State, id: TaskId) {
    && id !in s.tasks
    && (forall h :: id !in Ids(s.running, h) && id !in Ids(s.queued, h))
  }

  /**
   What the surroundings keep to: task ids are fresh, only started tasks report,
   external tasks end in a finished status, the clock never runs back, the renewal
   timer fires again within a lock's time to live, and only finished tasks are evicted.
   */
  ghost predicate Legal(s: State, e: Event) {
    match e
    case ScheduleCall(req) => Fresh(s, req.id)
    case RunnerReport(id, _) => id in s.tasks ==> s.tasks[id].status != Queued
    case ExternalStart(id, _) => Fresh(s, id)
    case ExternalEnd(_, status, _) => IsFinished(status)
    case ClockMoves(now) => s.now <= now <= s.lastRenew + DEFAULT_TTL
    case Evict(ids) => forall id <- ids :: id in s.tasks ==> IsFinished(s.tasks[id].status)
    case _ => true
  }

  function Step(s: State, e: Event): State {
    match e
    case ScheduleCall(req) => Schedule(s, req).0
    case RunnerReport(id, code) => Finish(s, id, code)
    case CancelCall(id, accepted) => Cancel(s, id, accepted).0
    case DequeueCall(id) => Dequeue(s, id).0
    case ExternalStart(id, job) => RegisterExternal(s, id, job)
    case ExternalEnd(id, status, code) => FinishExternal(s, id, status, code)
    case RenewTick => Renew(s)
    case ClockMoves(now) => s.(now := now)
    case Evict(ids) => s.(tasks := s.tasks - ids)
  }
}
