/** Short runs of the scheduler in which something happens that its documentation does not lead one to expect. */
module SchedulerWitnesses {
  import opened Base
  import opened LockTables
  import opened SchedulerModel
  import opened SchedulerInvariants
  import opened SchedulerRuns
  import opened SchedulerOutcomes
  import opened SchedulerPlaces
  import opened SchedulerTheorems

  function Light(cost: Cost, cwd: Option<Path>, bypass: bool): Job {
    Job(0, 0, cwd, cost, cwd.Some?, bypass, false, StaysRunning)
  }

  function Plain(id: TaskId, job: Job): Request {
    Request(id, job, false, false, None)
  }

  function RunningSince(job: Job, now: Time): Task {
    NewTask(job).(status := Running, startedAt := Some(now))
  }

  ghost predicate CanRun(s: State, req: Request) {
    && Sound(s, false) && Fresh(s, req.id) && !req.risky && !req.job.external && req.job.launch.StaysRunning?
    && LockFree(s, req.job) && (req.job.bypass || Blockers(With(s, req.id, NewTask(req.job)), req.job) == [])
  }

  /** The newcomer is set running, and its lock taken. */
  lemma FreshLaunches(s: State, req: Request)
    requires CanRun(s, req)
    ensures var s1 := With(s, req.id, NewTask(req.job));
            && Start(s1, req.id) == (AfterLaunch(s1, req.id), true) && Core(s1, Some(req.id))
            && s1.tasks[req.id].status == Queued && LockFree(s1, req.job)
  {
    var s1 := With(s, req.id, NewTask(req.job));
    AddedIsGood(s, s1, req.id, req.job, false);
    NewcomerMayStart(s, s1, req, false);
    StartKeeps(s1, req.id, false);
  }

  lemma ScheduleStarts(s: State, req: Request)
    requires !req.risky && !req.job.external
    requires req.job.bypass || Blockers(With(s, req.id, NewTask(req.job)), req.job) == []
    ensures var s1 := With(s, req.id, NewTask(req.job));
            && Schedule(s, req).0 == Start(s1, req.id).0
            && Schedule(s, req).1.action == if Start(s1, req.id).1 then RunNow else WasQueued
  {
    assert req.(job := req.job.(external := false)) == req;
  }

  /** A fresh request on the starting route whose lock is free runs. */
  lemma FreshRuns(s: State, req: Request)
    requires CanRun(s, req)
    ensures var (r, d) := Schedule(s, req);
            && d.action == RunNow && r.limits == s.limits && r.now == s.now
            && r.tasks == s.tasks[req.id := RunningSince(req.job, s.now)]
            && r.running == AddId(s.running, req.job.host, req.id)
            && Ids(r.queued, req.job.host) == Ids(s.queued, req.job.host)
  {
    var s1 := With(s, req.id, NewTask(req.job));
    FreshLaunches(s, req);
    ScheduleStarts(s, req);
    LaunchEffect(s1, req.id);
    DropAbsent(s.queued, req.job.host, req.id);
  }

  lemma FreshTakesLock(s: State, req: Request)
    requires CanRun(s, req)
    ensures forall k :: k in Schedule(s, req).0.locks.locks <==> k in s.locks.locks || NeededLock(req.job) == Some(k)
  {
    FreshLaunches(s, req);
    ScheduleStarts(s, req);
    LaunchEffect(With(s, req.id, NewTask(req.job)), req.id);
    LockOutcome(With(s, req.id, NewTask(req.job)), req.id);
  }

  lemma FreshStays(s: State, req: Request, id: TaskId)
    requires CanRun(s, req) && id != req.id && Fresh(s, id)
    ensures Fresh(Schedule(s, req).0, id)
  {
    FreshLaunches(s, req);
    ScheduleStarts(s, req);
    LaunchEffect(With(s, req.id, NewTask(req.job)), req.id);
    DropIdEffect(s.queued, req.job.host, req.id);
    AddIdEffect(s.running, req.job.host, req.id);
  }

  const BYPASSING: Job := Light(Tiny, Some(5), true)
  const WRITING: Job := Light(Small, Some(5), false)
  const READING: Job := Light(Small, None, false)
  const ALONE: Job := Light(Exclusive, None, false)

  const ONE_PLACE: Limits := Limits(1, 1)
  const TWO_RUNNING: Limits := Limits(1, 2)

  lemma FirstKeeps(limits: Limits, req: Request)
    ensures Sound(Step(Empty(limits, 0), ScheduleCall(req)), false)
  {
    EmptyIsSound(limits, 0);
    assert Sound(Empty(limits, 0), false);
    ScheduleKeeps(Empty(limits, 0), req, false);
  }

  // ---------------------------------------------------------------- told "queued" of a cancelled task

  /** A bypassing task that writes to directory 5 runs, where one task may run and one may wait. */
  ghost predicate BypasserRuns(s: State) {
    && s.limits == ONE_PLACE && s.now == 0
    && s.tasks == map[1 := RunningSince(BYPASSING, 0)]
    && Ids(s.running, 0) == [1] && Ids(s.queued, 0) == []
    && LockKey(WorkdirScope, 0, 5) in s.locks.locks && Fresh(s, 2) && Fresh(s, 3)
  }

  lemma FirstBypasses()
    ensures BypasserRuns(Step(Empty(ONE_PLACE, 0), ScheduleCall(Plain(1, BYPASSING))))
  {
    EmptyIsSound(ONE_PLACE, 0);
    FreshRuns(Empty(ONE_PLACE, 0), Plain(1, BYPASSING));
    FreshTakesLock(Empty(ONE_PLACE, 0), Plain(1, BYPASSING));
    FreshStays(Empty(ONE_PLACE, 0), Plain(1, BYPASSING), 2);
    FreshStays(Empty(ONE_PLACE, 0), Plain(1, BYPASSING), 3);
  }

  lemma NoCompetitors(s: State, id: TaskId, job: Job)
    requires s.limits == ONE_PLACE && job.host == 0 && job.cost == Small && Ids(s.running, 0) == [1] && id != 1
    requires 1 in s.tasks && s.tasks[1].job == BYPASSING
    ensures Blockers(With(s, id, NewTask(job)), job) == []
  {
    var x := With(s, id, NewTask(job));
    PickedNone(Ids(x.running, 0), Competing(x));
  }

  /** A task that nothing blocks but whose directory is locked is cancelled, and its caller told that it is queued. */
  lemma ToldQueuedOfCancelled()
    ensures var s := Step(Empty(ONE_PLACE, 0), ScheduleCall(Plain(1, BYPASSING)));
            var (r, d) := Schedule(s, Plain(2, WRITING));
            && Fresh(s, 2) && d.action == WasQueued
            && 2 in r.tasks && r.tasks[2].status == Cancelled
  {
    FirstBypasses();
    FirstKeeps(ONE_PLACE, Plain(1, BYPASSING));
    var s := Step(Empty(ONE_PLACE, 0), ScheduleCall(Plain(1, BYPASSING)));
    var s1 := With(s, 2, NewTask(WRITING));
    NoCompetitors(s, 2, WRITING);
    AddedIsGood(s, s1, 2, WRITING, false);
    StartTells(s1, 2, []);
  }

  // ---------------------------------------------------------------- a waiting task dropped by the pump

  /** Beside it runs a task without a lock, and a task that wants to write to directory 5 as well waits. */
  ghost predicate OneWaits(s: State) {
    && s.limits == ONE_PLACE && Ids(s.running, 0) == [1, 2] && Ids(s.queued, 0) == [3]
    && ThreeTasks(s.tasks)
  }

  ghost predicate ThreeTasks(tasks: map<TaskId, Task>) {
    && tasks.Keys == {1, 2, 3} && tasks[1] == RunningSince(BYPASSING, 0) && tasks[2] == RunningSince(READING, 0)
    && tasks[3].job == WRITING && tasks[3].status == Queued
  }

  ghost predicate TwoRun(s: State) {
    && s.limits == ONE_PLACE && s.now == 0
    && s.tasks == map[1 := RunningSince(BYPASSING, 0), 2 := RunningSince(READING, 0)]
    && Ids(s.running, 0) == [1, 2] && Ids(s.queued, 0) == [] && Fresh(s, 3)
  }

  lemma SecondCanRun(s: State)
    requires Sound(s, false) && BypasserRuns(s)
    ensures CanRun(s, Plain(2, READING))
  {
    NoCompetitors(s, 2, READING);
  }

  lemma SecondRuns(s: State)
    requires Sound(s, false) && BypasserRuns(s)
    ensures TwoRun(Step(s, ScheduleCall(Plain(2, READING))))
  {
    SecondCanRun(s);
    FreshRuns(s, Plain(2, READING));
    FreshStays(s, Plain(2, READING), 3);
  }

  const PATIENT: Request := Request(3, WRITING, false, false, Some(Queue))

  lemma ReaderBlocksThird(s: State)
    requires TwoRun(s)
    ensures var s1 := With(s, 3, NewTask(WRITING));
            !GoesToStart(s1, PATIENT) && EffectiveIfBusy(s1.tasks, PATIENT, Blockers(s1, WRITING)) == Queue
  {
    var s1 := With(s, 3, NewTask(WRITING));
    HasCompetitor(s1, 2);
  }

  lemma HasCompetitor(s: State, id: TaskId)
    requires s.limits == ONE_PLACE && id in Ids(s.running, 0) && id in Competing(s)
    ensures Blockers(s, WRITING) != []
  {
    assert id in Picked(Ids(s.running, 0), Competing(s));
  }

  /** Joining the queue leaves alone whatever is not waiting. */
  lemma JoinFrame(s1: State, id: TaskId)
    requires id in s1.tasks && s1.tasks[id].status == Queued && id !in Ids(s1.queued, s1.tasks[id].job.host)
    requires Roomy(s1, s1.tasks[id].job.host)
    ensures var (r, ok) := Enqueued(s1, id); var host := s1.tasks[id].job.host;
            && ok && r.limits == s1.limits && r.running == s1.running && r.tasks.Keys == s1.tasks.Keys
            && Ids(r.queued, host) == Ids(s1.queued, host) + [id]
            && r.tasks[id].job == s1.tasks[id].job && r.tasks[id].status == Queued
            && forall u <- s1.tasks :: s1.tasks[u].status != Queued ==> r.tasks[u] == s1.tasks[u]
  {
    EnqueueEffect(s1, id);
  }

  lemma ThirdJoins(s: State)
    requires TwoRun(s)
    ensures var (r, ok) := Enqueued(With(s, 3, NewTask(WRITING)), 3);
            Schedule(s, PATIENT).0 == r && Schedule(s, PATIENT).1.action == if ok then WasQueued else Rejected
  {
    ReaderBlocksThird(s);
    JoinsQueue(s, PATIENT);
  }

  lemma ThirdIsAdded(s: State)
    requires TwoRun(s)
    ensures ThreeTasks(With(s, 3, NewTask(WRITING)).tasks)
  {
  }

  lemma ThirdIsThere(s1: State)
    requires ThreeTasks(s1.tasks) && s1.limits == ONE_PLACE && Ids(s1.running, 0) == [1, 2] && Ids(s1.queued, 0) == []
    ensures var (r, ok) := Enqueued(s1, 3); ok && OneWaits(r)
  {
    JoinFrame(s1, 3);
  }

  lemma ThirdWaits(s: State)
    requires TwoRun(s)
    ensures var (r, ok) := Enqueued(With(s, 3, NewTask(WRITING)), 3); ok && OneWaits(r)
  {
    ThirdIsAdded(s);
    ThirdIsThere(With(s, 3, NewTask(WRITING)));
  }

  lemma SettledShape(s: State)
    requires OneWaits(s) && Core(s, None)
    ensures var s1 := Settled(s, 2, Completed, Some(0)); OnlyBypasserRuns(s1) && Core(s1, None)
  {
    SettledEnds(s, 2, Completed, Some(0));
    EndKeepsCore(s, Settled(s, 2, Completed, Some(0)), 2);
    DropIdEffect(s.running, 0, 2);
  }

  ghost predicate OnlyBypasserRuns(s: State) {
    && s.limits == ONE_PLACE && (forall u <- Ids(s.running, 0) :: u == 1) && 3 in Ids(s.queued, 0)
    && s.tasks.Keys == {1, 2, 3} && s.tasks[1] == RunningSince(BYPASSING, 0) && IsFinished(s.tasks[2].status)
    && s.tasks[3].job == WRITING && s.tasks[3].status == Queued
  }

  /** Once its neighbour is done, the waiting task is tried, refused, and dropped. */
  lemma ThirdIsRefused(s: State)
    requires OnlyBypasserRuns(s) && HoldersHold(s)
    ensures !Roomy(s, 0) && WaitingOn(s, 0) == {3} && Refused(s, 3)
  {
    assert Holds(s, 1, LockKey(WorkdirScope, 0, 5));
    PickedNone(Ids(s.running, 0), Competing(s));
  }

  lemma ReportPumps(s: State, id: TaskId)
    requires id in s.tasks && s.tasks[id].status == Running
    ensures Step(s, RunnerReport(id, 0)) == Pump(Settled(s, id, Completed, Some(0)), s.tasks[id].job.host)
  {
  }

  lemma RefusedThirdIsDropped(s: State)
    requires Core(s, None) && !Roomy(s, 0) && WaitingOn(s, 0) == {3} && Refused(s, 3)
    ensures 3 in Pump(s, 0).tasks && Pump(s, 0).tasks[3].status == Cancelled
  {
    PumpDropsRefused(s, 0);
    assert 3 in WaitingOn(s, 0);
  }

  lemma ThirdIsDropped(s: State)
    requires OneWaits(s) && Core(s, None)
    ensures Legal(s, RunnerReport(2, 0)) && 3 in Step(s, RunnerReport(2, 0)).tasks
    ensures Step(s, RunnerReport(2, 0)).tasks[3].status == Cancelled
  {
    ReportPumps(s, 2);
    SettledShape(s);
    ThirdIsRefused(Settled(s, 2, Completed, Some(0)));
    RefusedThirdIsDropped(Settled(s, 2, Completed, Some(0)));
  }

  /**
   With one place to wait: a bypassing task writes to a directory, a second task runs, a third that is to write
   there too is told that it is queued and waits; the second ends, and the third is cancelled, though nobody asked.
   */
  lemma AcceptedTaskIsDropped()
    ensures var s1 := Step(Empty(ONE_PLACE, 0), ScheduleCall(Plain(1, BYPASSING)));
            var s2 := Step(s1, ScheduleCall(Plain(2, READING)));
            var (s3, d) := Schedule(s2, PATIENT);
            var s4 := Step(s3, RunnerReport(2, 0));
            && Fresh(s1, 2) && Fresh(s2, 3) && Legal(s3, RunnerReport(2, 0))
            && d.action == WasQueued && 3 in s3.tasks && s3.tasks[3].status == Queued
            && 3 in s4.tasks && s4.tasks[3].status == Cancelled
  {
    FirstBypasses();
    FirstKeeps(ONE_PLACE, Plain(1, BYPASSING));
    var s1 := Step(Empty(ONE_PLACE, 0), ScheduleCall(Plain(1, BYPASSING)));
    SecondRuns(s1);
    StepKeeps(s1, ScheduleCall(Plain(2, READING)), false);
    var s2 := Step(s1, ScheduleCall(Plain(2, READING)));
    ThirdJoins(s2);
    ThirdWaits(s2);
    ScheduleKeeps(s2, PATIENT, false);
    ThirdIsDropped(Schedule(s2, PATIENT).0);
  }

  // ---------------------------------------------------------------- a full index without anyone waiting

  const BIG: Job := Light(Large, None, false)
  const ONE_WAITING: Limits := Limits(1, 4)

  /** One large task runs, and `queued` is what the queue index lists. */
  ghost predicate BigRuns(s: State, queued: seq<TaskId>) {
    && s.limits == ONE_WAITING
    && 1 in s.tasks && s.tasks[1].status == Running && s.tasks[1].job == BIG
    && Ids(s.running, 0) == [1] && Ids(s.queued, 0) == queued
  }

  lemma BigBlocks(s: State, queued: seq<TaskId>, id: TaskId)
    requires BigRuns(s, queued) && id != 1
    ensures var s1 := With(s, id, NewTask(BIG));
            !GoesToStart(s1, Plain(id, BIG)) && EffectiveIfBusy(s1.tasks, Plain(id, BIG), Blockers(s1, BIG)) == Queue
  {
    var s1 := With(s, id, NewTask(BIG));
    assert 1 in Picked(Ids(s1.running, 0), CompetingHeavy(s1));
  }

  lemma FirstBigRuns()
    ensures var s := Step(Empty(ONE_WAITING, 0), ScheduleCall(Plain(1, BIG)));
            BigRuns(s, []) && s.tasks.Keys == {1} && Fresh(s, 2)
  {
    EmptyIsSound(ONE_WAITING, 0);
    FreshRuns(Empty(ONE_WAITING, 0), Plain(1, BIG));
    FreshStays(Empty(ONE_WAITING, 0), Plain(1, BIG), 2);
  }

  lemma SecondBigJoins(s: State)
    requires BigRuns(s, []) && Fresh(s, 2)
    ensures Schedule(s, Plain(2, BIG)).0 == Enqueued(With(s, 2, NewTask(BIG)), 2).0
  {
    BigBlocks(s, [], 2);
    JoinsQueue(s, Plain(2, BIG));
  }

  /** A second one joins the queue. */
  lemma SecondBigWaits(s: State)
    requires BigRuns(s, []) && s.tasks.Keys == {1} && Fresh(s, 2)
    ensures var r := Step(s, ScheduleCall(Plain(2, BIG)));
            BigRuns(r, [2]) && WaitingOn(r, 0) == {2} && r.tasks.Keys == {1, 2}
  {
    SecondBigJoins(s);
    JoinFrame(With(s, 2, NewTask(BIG)), 2);
  }

  lemma JoinsQueue(s: State, req: Request)
    requires !req.risky && !req.job.external && Fresh(s, req.id)
    requires var s1 := With(s, req.id, NewTask(req.job));
             !GoesToStart(s1, req) && EffectiveIfBusy(s1.tasks, req, Blockers(s1, req.job)) == Queue
    ensures Schedule(s, req).0 == Enqueued(With(s, req.id, NewTask(req.job)), req.id).0
    ensures Schedule(s, req).1.action ==
            if Enqueued(With(s, req.id, NewTask(req.job)), req.id).1 then WasQueued else Rejected
  {
    assert req.(job := req.job.(external := false)) == req;
  }

  lemma SecondBigWithdrawn(s: State)
    requires Sound(s, false) && BigRuns(s, [2]) && WaitingOn(s, 0) == {2} && s.tasks.Keys == {1, 2}
    ensures var r := Step(s, DequeueCall(2)); BigRuns(r, [2]) && WaitingOn(r, 0) == {} && LeftBehind(r, 0, 2)
  {
    assert 2 in WaitingOn(s, 0);
    DequeueFreesNoPlace(s, 2);
    RenumberEffect(With(s, 2, s.tasks[2].(status := Cancelled)), 0);
  }

  lemma ThirdBigRejected(s: State)
    requires BigRuns(s, [2]) && LeftBehind(s, 0, 2)
    ensures Schedule(s, Plain(3, BIG)).1.action == Rejected
  {
    BigBlocks(s, [2], 3);
    FullForGood(s, [], {2}, Plain(3, BIG));
  }

  /**
   A place in the queue for one, one task queued and withdrawn: the queue is empty, yet the next task is rejected
   as if it were full.
   */
  lemma EmptyQueueRejects()
    ensures var s1 := Step(Empty(ONE_WAITING, 0), ScheduleCall(Plain(1, BIG)));
            var s2 := Step(s1, ScheduleCall(Plain(2, BIG)));
            var s3 := Step(s2, DequeueCall(2));
            && WaitingOn(s2, 0) == {2} && WaitingOn(s3, 0) == {}
            && Schedule(s3, Plain(3, BIG)).1.action == Rejected
  {
    FirstBigRuns();
    FirstKeeps(ONE_WAITING, Plain(1, BIG));
    var s1 := Step(Empty(ONE_WAITING, 0), ScheduleCall(Plain(1, BIG)));
    SecondBigWaits(s1);
    var s2 := Step(s1, ScheduleCall(Plain(2, BIG)));
    StepKeeps(s1, ScheduleCall(Plain(2, BIG)), false);
    SecondBigWithdrawn(s2);
    ThirdBigRejected(Step(s2, DequeueCall(2)));
  }

  // ---------------------------------------------------------------- beside an exclusive task, and without a lock

  lemma ReaderRuns(s: State)
    requires Sound(s, false) && s.limits == TWO_RUNNING && s.now == 0 && Fresh(s, 2) && Ids(s.running, 0) == [1]
    requires s.tasks == map[1 := RunningSince(ALONE, 0)]
    ensures var (r, d) := Schedule(s, Plain(2, READING));
            d.action == RunNow && r.tasks == map[1 := RunningSince(ALONE, 0), 2 := RunningSince(READING, 0)]
  {
    var x := With(s, 2, NewTask(READING));
    PickedShortens(Ids(x.running, 0), Competing(x));
    FreshRuns(s, Plain(2, READING));
  }

  lemma ExclusiveRuns()
    ensures var s := Step(Empty(TWO_RUNNING, 0), ScheduleCall(Plain(1, ALONE)));
            && s.limits == TWO_RUNNING && s.now == 0 && Fresh(s, 2) && Ids(s.running, 0) == [1]
            && s.tasks == map[1 := RunningSince(ALONE, 0)]
  {
    EmptyIsSound(TWO_RUNNING, 0);
    FreshRuns(Empty(TWO_RUNNING, 0), Plain(1, ALONE));
    FreshStays(Empty(TWO_RUNNING, 0), Plain(1, ALONE), 2);
  }

  /** A small task starts beside a running exclusive one. */
  lemma SmallBesideExclusive()
    ensures var s1 := Step(Empty(TWO_RUNNING, 0), ScheduleCall(Plain(1, ALONE)));
            var (s2, d) := Schedule(s1, Plain(2, READING));
            && Fresh(s1, 2) && d.action == RunNow
            && s2.tasks == map[1 := RunningSince(ALONE, 0), 2 := RunningSince(READING, 0)]
  {
    ExclusiveRuns();
    FirstKeeps(TWO_RUNNING, Plain(1, ALONE));
    ReaderRuns(Step(Empty(TWO_RUNNING, 0), ScheduleCall(Plain(1, ALONE))));
  }

  lemma WriterRuns()
    ensures var s := Step(Empty(TWO_RUNNING, 0), ScheduleCall(Plain(1, WRITING)));
            s.now == 0 && Fresh(s, 2) && s.tasks == map[1 := RunningSince(WRITING, 0)]
  {
    EmptyIsSound(TWO_RUNNING, 0);
    FreshRuns(Empty(TWO_RUNNING, 0), Plain(1, WRITING));
    FreshStays(Empty(TWO_RUNNING, 0), Plain(1, WRITING), 2);
  }

  lemma ExternalJoins(s: State, id: TaskId, job: Job)
    ensures Step(s, ExternalStart(id, job)).tasks == s.tasks[id := RunningSince(job.(external := true), s.now)]
  {
  }

  /** An external task writes to a directory in which a task of the scheduler is already writing. */
  lemma ExternalWritesBeside()
    ensures var s1 := Step(Empty(TWO_RUNNING, 0), ScheduleCall(Plain(1, WRITING)));
            var s2 := Step(s1, ExternalStart(2, WRITING));
            && Fresh(s1, 2)
            && s2.tasks == map[1 := RunningSince(WRITING, 0), 2 := RunningSince(WRITING.(external := true), 0)]
  {
    WriterRuns();
    ExternalJoins(Step(Empty(TWO_RUNNING, 0), ScheduleCall(Plain(1, WRITING))), 2, WRITING);
  }

  // ---------------------------------------------------------------- two writers, one of them exclusive

  const ALONE_WRITING: Job := Light(Exclusive, Some(5), false)

  ghost predicate ExclusiveWrites(s: State) {
    && s.limits == TWO_RUNNING && s.now == 0 && Fresh(s, 2) && Ids(s.running, 0) == [1]
    && s.tasks == map[1 := RunningSince(ALONE_WRITING, 0)] && LockKey(WorkdirScope, 0, 5) !in s.locks.locks
  }

  lemma ExclusiveWriterRuns()
    ensures ExclusiveWrites(Step(Empty(TWO_RUNNING, 0), ScheduleCall(Plain(1, ALONE_WRITING))))
  {
    EmptyIsSound(TWO_RUNNING, 0);
    FreshRuns(Empty(TWO_RUNNING, 0), Plain(1, ALONE_WRITING));
    FreshTakesLock(Empty(TWO_RUNNING, 0), Plain(1, ALONE_WRITING));
    FreshStays(Empty(TWO_RUNNING, 0), Plain(1, ALONE_WRITING), 2);
  }

  lemma SecondWriterRuns(s: State)
    requires Sound(s, false) && ExclusiveWrites(s)
    ensures var (r, d) := Schedule(s, Plain(2, WRITING));
            d.action == RunNow && r.tasks == map[1 := RunningSince(ALONE_WRITING, 0), 2 := RunningSince(WRITING, 0)]
  {
    var x := With(s, 2, NewTask(WRITING));
    PickedShortens(Ids(x.running, 0), Competing(x));
    FreshRuns(s, Plain(2, WRITING));
  }

  /** The scheduler runs a small task beside an exclusive one, and both write to one directory. */
  lemma ExclusiveSharesDirectory()
    ensures var s1 := Step(Empty(TWO_RUNNING, 0), ScheduleCall(Plain(1, ALONE_WRITING)));
            var (s2, d) := Schedule(s1, Plain(2, WRITING));
            && Fresh(s1, 2) && d.action == RunNow && MutateOneDirectory(ALONE_WRITING, WRITING)
            && s2.tasks == map[1 := RunningSince(ALONE_WRITING, 0), 2 := RunningSince(WRITING, 0)]
  {
    ExclusiveWriterRuns();
    FirstKeeps(TWO_RUNNING, Plain(1, ALONE_WRITING));
    SecondWriterRuns(Step(Empty(TWO_RUNNING, 0), ScheduleCall(Plain(1, ALONE_WRITING))));
  }

  // ---------------------------------------------------------------- more small tasks than the limit

  lemma ReaderGoesAnyway(s1: State)
    requires 2 in s1.tasks && s1.tasks[2] == NewTask(READING) && forall id <- Competing(s1) :: s1.tasks[id].job == READING
    ensures GoesToStart(s1, Plain(2, READING))
  {
    assert forall b <- Blockers(s1, READING) :: b in Competing(s1);
  }

  lemma ReaderRunsAnyway(s: State)
    requires Sound(s, false) && Fresh(s, 2) && s.tasks == map[1 := RunningSince(READING, 0)]
    ensures Schedule(s, Plain(2, READING)).1.action == RunNow
  {
    ReaderGoesAnyway(With(s, 2, NewTask(READING)));
    assert Plain(2, READING).(job := READING.(external := false)) == Plain(2, READING);
    RunsNowIff(s, Plain(2, READING));
  }

  /** One task may run, and a second small one that asks for nothing special runs beside it. */
  lemma SmallOverLimit()
    ensures var s1 := Step(Empty(ONE_PLACE, 0), ScheduleCall(Plain(1, READING)));
            && Fresh(s1, 2) && s1.limits.maxTotalRunning == 1
            && s1.tasks == map[1 := RunningSince(READING, 0)]
            && Schedule(s1, Plain(2, READING)).1.action == RunNow
  {
    EmptyIsSound(ONE_PLACE, 0);
    FreshRuns(Empty(ONE_PLACE, 0), Plain(1, READING));
    FreshStays(Empty(ONE_PLACE, 0), Plain(1, READING), 2);
    FirstKeeps(ONE_PLACE, Plain(1, READING));
    ReaderRunsAnyway(Step(Empty(ONE_PLACE, 0), ScheduleCall(Plain(1, READING))));
  }

  // ---------------------------------------------------------------- a large task beside an exclusive one

  const FOUR_RUNNING: Limits := Limits(5, 4)
  const INSISTING: Request :=
    Request(4, Job(0, 0, Some(5), Large, false, false, false, StaysRunning), false, false, Some(RunAnyway))

  const HOST_LOCK: LockKey := LockKey(HostScope, 0, 0)
  const DIRECTORY_LOCK: LockKey := LockKey(WorkdirScope, 0, 5)
  const OUTSIDER: Job := ALONE.(external := true)

  ghost predicate IdsBelow(s: State, n: TaskId) {
    && (forall id <- s.tasks :: id < n)
    && forall h, id :: id in Ids(s.running, h) || id in Ids(s.queued, h) ==> id < n
  }

  ghost predicate OnlyLock(s: State, at: LockKey) {
    forall k :: k in s.locks.locks <==> k == at
  }

  /** An exclusive task of the scheduler runs; the host lock is the only one. */
  ghost predicate OneExclusive(s: State) {
    && s.limits == FOUR_RUNNING && s.now == 0 && s.tasks == map[1 := RunningSince(ALONE, 0)]
    && IdsBelow(s, 2) && OnlyLock(s, HOST_LOCK)
  }

  lemma FirstExclusive()
    ensures OneExclusive(Step(Empty(FOUR_RUNNING, 0), ScheduleCall(Plain(1, ALONE))))
  {
    EmptyIsSound(FOUR_RUNNING, 0);
    FreshRuns(Empty(FOUR_RUNNING, 0), Plain(1, ALONE));
    FreshTakesLock(Empty(FOUR_RUNNING, 0), Plain(1, ALONE));
    FreshIdsBelow(Empty(FOUR_RUNNING, 0), Plain(1, ALONE), 2);
  }

  lemma FreshIdsBelow(s: State, req: Request, n: TaskId)
    requires CanRun(s, req) && IdsBelow(s, n) && req.id < n
    ensures IdsBelow(Schedule(s, req).0, n)
  {
    FreshLaunches(s, req);
    ScheduleStarts(s, req);
    LaunchEffect(With(s, req.id, NewTask(req.job)), req.id);
    DropIdEffect(s.queued, req.job.host, req.id);
    AddIdEffect(s.running, req.job.host, req.id);
  }

  /** An exclusive task from outside runs too, without the lock. */
  ghost predicate TwoExclusive(s: State) {
    && s.limits == FOUR_RUNNING && IdsBelow(s, 3) && OnlyLock(s, HOST_LOCK) && 2 in Ids(s.running, 0)
    && s.tasks == map[1 := RunningSince(ALONE, 0), 2 := RunningSince(OUTSIDER, 0)]
  }

  lemma OutsiderRuns(s: State)
    requires Core(s, None) && OneExclusive(s)
    ensures Fresh(s, 2) && TwoExclusive(Step(s, ExternalStart(2, ALONE)))
  {
    var s1 := Indexed(With(s, 2, RunningSince(OUTSIDER, 0)), 2);
    AddIdEffect(s.running, 0, 2);
    ExternalKeepsCore(s, s1, 2, OUTSIDER);
    LockOutcome(s1, 2);
  }

  /** The scheduler's own exclusive task has ended; nobody holds a lock. */
  ghost predicate OutsiderAlone(s: State) {
    && s.limits == FOUR_RUNNING && IdsBelow(s, 3) && s.locks.locks == map[] && 2 in Ids(s.running, 0)
    && s.tasks.Keys == {1, 2} && IsFinished(s.tasks[1].status) && s.tasks[2] == RunningSince(OUTSIDER, 0)
  }

  lemma FirstEnds(s: State)
    requires Core(s, None) && TwoExclusive(s)
    ensures OutsiderAlone(Settled(s, 1, Completed, Some(0)))
  {
    var r := Settled(s, 1, Completed, Some(0));
    SettledEnds(s, 1, Completed, Some(0));
    EndKeepsOwned(s, r, 1);
    assert Holds(s, 1, HOST_LOCK);
    assert r.locks.locks.Keys == {};
  }

  lemma NothingToPump(s: State, host: HostId)
    requires WaitingOn(s, host) == {}
    ensures Pump(s, host) == s
  {
    DistinctCount(QueuedHere(s, host));
    CardLe(Elements(QueuedHere(s, host)), WaitingOn(s, host));
    EmptyPass(s, host);
  }

  lemma EmptyPass(s: State, host: HostId)
    requires QueuedHere(s, host) == []
    ensures Pump(s, host) == s
  {
    assert Scan(s, host, []) == (s, false);
    assert NumberFrom(s.tasks, [], 0) == s.tasks;
  }

  lemma FirstReports(s: State)
    requires Core(s, None) && TwoExclusive(s)
    ensures Legal(s, RunnerReport(1, 0)) && OutsiderAlone(Step(s, RunnerReport(1, 0)))
  {
    ReportPumps(s, 1);
    FirstEnds(s);
    NobodyWaits(Settled(s, 1, Completed, Some(0)));
    NothingToPump(Settled(s, 1, Completed, Some(0)), 0);
  }

  lemma NobodyWaits(s: State)
    requires OutsiderAlone(s)
    ensures WaitingOn(s, 0) == {}
  {
  }

  /** A small task writes to directory 5 beside it. */
  ghost predicate WriterBeside(s: State) {
    && s.limits == FOUR_RUNNING && Fresh(s, 4) && OnlyLock(s, DIRECTORY_LOCK)
    && 2 in s.tasks && s.tasks[2] == RunningSince(OUTSIDER, 0)
  }

  lemma WriterCanRun(s: State)
    requires Sound(s, false) && OutsiderAlone(s)
    ensures CanRun(s, Plain(3, WRITING))
  {
    var s1 := With(s, 3, NewTask(WRITING));
    var nonBypass := Picked(Ids(s1.running, 0), Competing(s1));
    DistinctCount(nonBypass);
    CardLe(Elements(nonBypass), {2});
  }

  lemma WriterJoins(s: State)
    requires Sound(s, false) && OutsiderAlone(s)
    ensures WriterBeside(Step(s, ScheduleCall(Plain(3, WRITING))))
  {
    WriterCanRun(s);
    FreshRuns(s, Plain(3, WRITING));
    FreshTakesLock(s, Plain(3, WRITING));
    FreshStays(s, Plain(3, WRITING), 4);
  }

  lemma InsistingRuns(s: State)
    requires Sound(s, false) && WriterBeside(s)
    ensures Schedule(s, INSISTING).1.action == RunNow && 2 in CompetingExclusive(s)
  {
    assert LooksNoFurther(s, INSISTING);
    RunsBesideExclusiveIff(s, INSISTING, 2);
  }

  /**
   An exclusive task is started, a second one registered from outside, and the first ends; a small task writes to a
   directory. A large task that is to read there and asks to run anyway runs beside the exclusive one.
   */
  lemma LargeBesideExclusive()
    ensures var s1 := Step(Empty(FOUR_RUNNING, 0), ScheduleCall(Plain(1, ALONE)));
            var s2 := Step(s1, ExternalStart(2, ALONE));
            var s3 := Step(s2, RunnerReport(1, 0));
            var s4 := Step(s3, ScheduleCall(Plain(3, WRITING)));
            && Fresh(s1, 2) && Legal(s2, RunnerReport(1, 0)) && Fresh(s3, 3) && Fresh(s4, 4)
            && 2 in CompetingExclusive(s4) && s4.tasks[2].job.host == INSISTING.job.host
            && Schedule(s4, INSISTING).1.action == RunNow
  {
    FirstExclusive();
    FirstKeeps(FOUR_RUNNING, Plain(1, ALONE));
    var s1 := Step(Empty(FOUR_RUNNING, 0), ScheduleCall(Plain(1, ALONE)));
    OutsiderRuns(s1);
    StepKeeps(s1, ExternalStart(2, ALONE), false);
    var s2 := Step(s1, ExternalStart(2, ALONE));
    FirstReports(s2);
    StepKeeps(s2, RunnerReport(1, 0), false);
    var s3 := Step(s2, RunnerReport(1, 0));
    WriterJoins(s3);
    StepKeeps(s3, ScheduleCall(Plain(3, WRITING)), false);
    InsistingRuns(Step(s3, ScheduleCall(Plain(3, WRITING))));
  }
}
