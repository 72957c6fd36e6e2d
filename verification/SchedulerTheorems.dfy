/** What callers may rely on in every state a run of the scheduler can reach. */
module SchedulerTheorems {
  import opened Base
  import opened LockTables
  import opened SchedulerModel
  import opened SchedulerInvariants
  import opened SchedulerRuns

  /** The state after the events `es`, from an empty scheduler. */
  function Reached(limits: Limits, start: Time, es: seq<Event>): State {
    Run(Empty(limits, start), es)
  }

  ghost predicate Possible(limits: Limits, start: Time, es: seq<Event>) {
    LegalRun(Empty(limits, start), es)
  }

  lemma ReachedIsSound(limits: Limits, start: Time, es: seq<Event>, strict: bool)
    requires Possible(limits, start, es) && (strict ==> forall e <- es :: Careful(e))
    ensures Sound(Reached(limits, start, es), strict)
  {
    EmptyIsSound(limits, start);
    assert Sound(Empty(limits, start), strict);
    RunKeeps(Empty(limits, start), es, strict);
  }

  // ---------------------------------------------------------------- locks

  predicate RunsAtSchedulersWord(s: State, id: TaskId) {
    id in s.tasks && s.tasks[id].status == Running && !s.tasks[id].job.external
  }

  /**
   Bypassing or not, no two running tasks are both exclusive on a host, and no two that are not exclusive both mutate
   one working directory.
   */
  lemma MutualExclusion(limits: Limits, start: Time, es: seq<Event>, a: TaskId, b: TaskId)
    requires Possible(limits, start, es) && a != b
    requires var s := Reached(limits, start, es);
             && RunsAtSchedulersWord(s, a) && RunsAtSchedulersWord(s, b)
             && s.tasks[a].job.host == s.tasks[b].job.host
    ensures var j, k := Reached(limits, start, es).tasks[a].job, Reached(limits, start, es).tasks[b].job;
            && !(j.cost == Exclusive && k.cost == Exclusive)
            && !(j.cost != Exclusive && k.cost != Exclusive && MutateOneDirectory(j, k))
  {
    var s := Reached(limits, start, es);
    ReachedIsSound(limits, start, es, false);
    RunnerOwnsLock(s, a);
    RunnerOwnsLock(s, b);
  }

  predicate MutateOneDirectory(j: Job, k: Job) {
    j.mutates && k.mutates && j.cwd.Some? && j.cwd == k.cwd
  }

  /**
   An exclusive task takes the host lock only, and any other mutating task only the lock on its directory. So two
   running tasks can mutate one directory after all, and then exactly one of them is exclusive.
   */
  lemma SharedDirectoryIsMixed(limits: Limits, start: Time, es: seq<Event>, a: TaskId, b: TaskId)
    requires Possible(limits, start, es) && a != b
    requires var s := Reached(limits, start, es);
             && RunsAtSchedulersWord(s, a) && RunsAtSchedulersWord(s, b)
             && s.tasks[a].job.host == s.tasks[b].job.host && MutateOneDirectory(s.tasks[a].job, s.tasks[b].job)
    ensures var s := Reached(limits, start, es); s.tasks[a].job.cost == Exclusive <==> s.tasks[b].job.cost != Exclusive
  {
    MutualExclusion(limits, start, es, a, b);
  }

  lemma RunnerOwnsLock(s: State, id: TaskId)
    requires HoldersHold(s) && RunsAtSchedulersWord(s, id)
    ensures var needed := NeededLock(s.tasks[id].job);
            needed.Some? ==> needed.value in s.locks.locks && s.locks.locks[needed.value].ownerTask == Some(id)
  {
    assert NeededLock(s.tasks[id].job).Some? ==> Holds(s, id, NeededLock(s.tasks[id].job).value);
  }

  /**
   Every held lock belongs to a task that runs on the lock's host, is found again
   by its id, and has not expired; every task the scheduler started holds its lock.
   */
  lemma LocksFollowTasks(limits: Limits, start: Time, es: seq<Event>)
    requires Possible(limits, start, es)
    ensures var s := Reached(limits, start, es);
            && (forall k <- s.locks.locks ::
                  var l := s.locks.locks[k];
                  && l.ownerTask.Some? && l.ownerTask.value in s.tasks
                  && s.tasks[l.ownerTask.value].status == Running && s.tasks[l.ownerTask.value].job.host == k.host
                  && l.id in s.locks.keyOf && s.locks.keyOf[l.id] == k
                  && l.expiresAt >= s.now)
            && (forall i <- s.locks.keyOf :: s.locks.keyOf[i] in s.locks.locks && s.locks.locks[s.locks.keyOf[i]].id == i)
            && (forall id <- s.tasks ::
                  RunsAtSchedulersWord(s, id) && NeededLock(s.tasks[id].job).Some?
                  ==> Holds(s, id, NeededLock(s.tasks[id].job).value))
  {
    ReachedIsSound(limits, start, es, false);
  }

  /**
   External tasks run with or without their lock. Two running tasks that need the same lock are never both without
   an excuse: one of them was registered from outside, and it does not hold the lock.
   */
  lemma SharedLockIsExternal(limits: Limits, start: Time, es: seq<Event>, a: TaskId, b: TaskId)
    requires Possible(limits, start, es) && a != b
    requires var s := Reached(limits, start, es);
             && a in s.tasks && s.tasks[a].status == Running && b in s.tasks && s.tasks[b].status == Running
             && NeededLock(s.tasks[a].job).Some? && NeededLock(s.tasks[a].job) == NeededLock(s.tasks[b].job)
    ensures var s := Reached(limits, start, es); var k := NeededLock(s.tasks[a].job).value;
            (s.tasks[a].job.external && !Holds(s, a, k)) || (s.tasks[b].job.external && !Holds(s, b, k))
  {
    ReachedIsSound(limits, start, es, false);
    var s := Reached(limits, start, es);
    var k := NeededLock(s.tasks[a].job).value;
    assert Holds(s, a, k) ==> !Holds(s, b, k);
  }

  /** An external task gets the lock it needs exactly if that is free when it is registered. */
  lemma ExternalHoldsIff(limits: Limits, start: Time, es: seq<Event>, id: TaskId, job: Job)
    requires Possible(limits, start, es) && Fresh(Reached(limits, start, es), id) && NeededLock(job).Some?
    ensures var s := Reached(limits, start, es);
            && Holds(RegisterExternal(s, id, job), id, NeededLock(job).value) <==> LockFree(s, job)
  {
    ReachedIsSound(limits, start, es, false);
    var s, ext := Reached(limits, start, es), job.(external := true);
    var s1 := Indexed(With(s, id, NewTask(ext).(status := Running, startedAt := Some(s.now))), id);
    ExternalIsGood(s, s1, id, ext, false);
    LockOutcome(s1, id);
  }

  // ---------------------------------------------------------------- queue

  /** Nothing waits that could run: a waiting task has blockers, or another running task holds the lock it needs. */
  lemma WorkConservation(limits: Limits, start: Time, es: seq<Event>, id: TaskId)
    requires Possible(limits, start, es)
    requires id in Reached(limits, start, es).tasks && Reached(limits, start, es).tasks[id].status == Queued
    ensures var s := Reached(limits, start, es); var job := s.tasks[id].job;
            || Blockers(s, job) != []
            || (NeededLock(job).Some?
                && exists o :: o in s.tasks && o != id && s.tasks[o].status == Running && Holds(s, o, NeededLock(job).value))
  {
    var s := Reached(limits, start, es);
    ReachedIsSound(limits, start, es, false);
    assert Calm(s, s.tasks[id].job.host);
    assert id in WaitingOn(s, s.tasks[id].job.host);
    if Blockers(s, s.tasks[id].job) == [] {
      var k := NeededLock(s.tasks[id].job).value;
      var o := s.locks.locks[k].ownerTask.value;
      assert Holds(s, o, k);
    }
  }

  /**
   The indexes, read through the status filter, are exactly the task map's running
   and waiting tasks; the queue is within its size and numbered 1..n by queueing time.
   */
  lemma IndexesAgree(limits: Limits, start: Time, es: seq<Event>, host: HostId)
    requires Possible(limits, start, es)
    ensures var s := Reached(limits, start, es); var q := QueuedHere(s, host);
            && (forall id :: id in Picked(Ids(s.running, host), WithStatus(s, Running))
                             <==> id in s.tasks && s.tasks[id].status == Running && s.tasks[id].job.host == host)
            && (forall id :: id in q <==> id in WaitingOn(s, host))
            && Distinct(q) && InOrder(s.tasks, q)
            && (q == [] || |q| <= limits.maxQueueSize)
            && (forall i :: 0 <= i < |q| ==> q[i] in q && s.tasks[q[i]].queuePosition == Some(i + 1))
  {
    var s := Reached(limits, start, es);
    ReachedIsSound(limits, start, es, false);
    LimitsStay(Empty(limits, start), es);
    assert Calm(s, host);
    var q := QueuedHere(s, host);
    SortSorts(s.tasks, Picked(Ids(s.queued, host), WaitingOn(s, host)));
    DistinctCount(q);
    assert Elements(q) == WaitingOn(s, host);
  }

  /** No start, by whatever route, overtakes a startable task that was queued earlier. */
  lemma NoOvertaking(limits: Limits, start: Time, es: seq<Event>)
    requires Possible(limits, start, es)
    ensures forall r <- Reached(limits, start, es).history :: r.overtaken == {}
  {
    ReachedIsSound(limits, start, es, false);
  }

  // ---------------------------------------------------------------- admission

  /** A tiny task that did not bypass the scheduler never started beside a competing exclusive task. */
  lemma TinyKeepsOff(limits: Limits, start: Time, es: seq<Event>)
    requires Possible(limits, start, es)
    ensures forall r <- Reached(limits, start, es).history ::
              r.job.cost == Tiny && !r.job.bypass ==> forall j <- r.beside :: j.cost != Exclusive
  {
    ReachedIsSound(limits, start, es, false);
  }

  /**
   If heavy tasks that take part in scheduling never ask to run anyway and none is
   external: a host has at most one of them running, an exclusive one started only
   beside no competitor, and a large one only beside light ones.
   */
  lemma Admission(limits: Limits, start: Time, es: seq<Event>)
    requires Possible(limits, start, es) && forall e <- es :: Careful(e)
    ensures var s := Reached(limits, start, es);
            && OneHeavy(s)
            && (forall r <- s.history :: r.job.cost == Exclusive && !r.job.bypass ==> r.beside == [])
            && (forall r <- s.history :: r.job.cost == Large && !r.job.bypass ==> forall j <- r.beside :: !IsHeavy(j.cost))
  {
    ReachedIsSound(limits, start, es, true);
  }

  /**
   Whatever started beside a competing exclusive task of the scheduler's own was small or medium and below the limit;
   with the same restriction as above, so was whatever started beside any.
   */
  lemma LightBeside(limits: Limits, start: Time, es: seq<Event>)
    requires Possible(limits, start, es)
    ensures forall r <- Reached(limits, start, es).history ::
              !r.job.bypass && BesideOwnExclusive(r) ==> IsLightStart(r, limits)
    ensures (forall e <- es :: Careful(e)) ==>
              forall r <- Reached(limits, start, es).history ::
                !r.job.bypass && BesideExclusive(r) ==> IsLightStart(r, limits)
  {
    ReachedIsSound(limits, start, es, forall e <- es :: Careful(e));
    LimitsStay(Empty(limits, start), es);
  }

  predicate IsLightStart(r: StartRecord, limits: Limits) {
    (r.job.cost == Small || r.job.cost == Medium) && |r.beside| < limits.maxTotalRunning
  }

  /** In every reachable state the pump's counted check answers what the plain one does. */
  lemma FastBlockersRefine(limits: Limits, start: Time, es: seq<Event>, j: Job)
    requires Possible(limits, start, es)
    ensures CountedBlockers(Reached(limits, start, es), j) == Blockers(Reached(limits, start, es), j)
  {
    ReachedIsSound(limits, start, es, false);
    FastIsPlain(Reached(limits, start, es), j, None);
  }
}
