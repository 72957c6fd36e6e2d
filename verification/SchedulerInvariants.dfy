/** What every call inside the scheduler keeps, through all the re-entrant starts, finishes and pumps. */
module SchedulerInvariants {
  import opened Base
  import opened LockTables
  import opened SchedulerModel

  // ---------------------------------------------------------------- the invariant

  /** Every held lock belongs to a running task that needs it, and is on record for renewal. */
  ghost predicate LocksOwned(s: State) {
    && Consistent(s.locks)
    && forall k <- s.locks.locks ::
         var l := s.locks.locks[k];
         && l.ownerTask.Some?
         && l.ownerTask.value in s.tasks
         && s.tasks[l.ownerTask.value].status == Running
         && NeededLock(s.tasks[l.ownerTask.value].job) == Some(k)
         && l.ownerTask.value in s.lockIds && s.lockIds[l.ownerTask.value] == [l.id]
  }

  ghost predicate Holds(s: State, id: TaskId, k: LockKey) {
    k in s.locks.locks && s.locks.locks[k].ownerTask == Some(id)
  }

  /** Every running task that the scheduler started holds the lock it needs. */
  ghost predicate HoldersHold(s: State) {
    forall id <- s.tasks ::
      s.tasks[id].status == Running && !s.tasks[id].job.external && NeededLock(s.tasks[id].job).Some?
      ==> Holds(s, id, NeededLock(s.tasks[id].job).value)
  }

  ghost predicate LocksLive(s: State) {
    && s.lastRenew <= s.now <= s.lastRenew + DEFAULT_TTL
    && AllFresh(s.locks, s.lastRenew + DEFAULT_TTL)
  }

  /** The indexes hold every running and every waiting task (but `pending`), each under its own host. */
  ghost predicate IndexesCover(s: State, pending: Option<TaskId>) {
    && (forall id <- s.tasks :: s.tasks[id].status == Running ==> id in Ids(s.running, s.tasks[id].job.host))
    && (forall id <- s.tasks :: s.tasks[id].status == Queued && Some(id) != pending ==>
          id in Ids(s.queued, s.tasks[id].job.host) && s.tasks[id].queuedAt.Some?)
    && (forall h, id :: id in Ids(s.running, h) && id in s.tasks ==> s.tasks[id].job.host == h)
    && (forall h, id :: id in Ids(s.queued, h) && id in s.tasks ==> s.tasks[id].job.host == h)
  }

  ghost predicate Core(s: State, pending: Option<TaskId>) {
    LocksOwned(s) && HoldersHold(s) && LocksLive(s) && IndexesCover(s, pending)
  }

  /** Of the running tasks that did not bypass the scheduler, at most one per host is large or exclusive. */
  ghost predicate OneHeavy(s: State) {
    forall a, b :: a in CompetingHeavy(s) && b in CompetingHeavy(s) && s.tasks[a].job.host == s.tasks[b].job.host ==> a == b
  }

  predicate BesideExclusive(r: StartRecord) {
    exists j <- r.beside :: j.cost == Exclusive
  }

  /** The scheduler itself started an exclusive task that the start was beside. */
  predicate BesideOwnExclusive(r: StartRecord) {
    exists j <- r.beside :: j.cost == Exclusive && !j.external
  }

  /**
   A start that overtook no startable task; unless it bypassed, a tiny task does not start beside an exclusive one,
   a small or medium one only below the limit on running tasks, and a heavy one only if the exclusive task is external.
   */
  ghost predicate FairStart(r: StartRecord, limits: Limits) {
    && r.overtaken == {}
    && (!r.job.bypass && BesideExclusive(r) ==> LightBesideExclusive(r, limits))
    && (!r.job.bypass && BesideOwnExclusive(r) ==> !IsHeavy(r.job.cost))
  }

  ghost predicate LightBesideExclusive(r: StartRecord, limits: Limits) {
    && r.job.cost != Tiny
    && (r.job.cost == Small || r.job.cost == Medium ==> |r.beside| < limits.maxTotalRunning)
  }

  /** A start that respects the limits on large and exclusive tasks. */
  ghost predicate AdmittedStart(r: StartRecord) {
    && (r.job.cost == Exclusive && !r.job.bypass ==> r.beside == [])
    && (r.job.cost == Large && !r.job.bypass ==> forall j <- r.beside :: !IsHeavy(j.cost))
  }

  ghost predicate AllFair(s: State) {
    forall r <- s.history :: FairStart(r, s.limits)
  }

  ghost predicate AllAdmitted(s: State) {
    OneHeavy(s) && forall r <- s.history :: AdmittedStart(r)
  }

  /** `strict` adds what holds only while heavy requests respect their blockers. */
  ghost predicate Good(s: State, pending: Option<TaskId>, strict: bool) {
    Core(s, pending) && AllFair(s) && (strict ==> AllAdmitted(s))
  }

  /** No waiting task of the host could be started. */
  ghost predicate Conserving(s: State, host: HostId) {
    forall id <- WaitingOn(s, host) :: !Startable(s, s.tasks[id].job)
  }

  ghost predicate Numbered(s: State, host: HostId) {
    var q := QueuedHere(s, host);
    forall i :: 0 <= i < |q| ==> q[i] in q && s.tasks[q[i]].queuePosition == Some(i + 1)
  }

  /** What a step on `host` leaves alone. */
  ghost predicate Away(s: State, r: State, host: HostId) {
    && r.limits == s.limits && r.now == s.now && r.lastRenew == s.lastRenew
    && r.tasks.Keys == s.tasks.Keys
    && (forall id <- s.tasks :: r.tasks[id].job == s.tasks[id].job)
    && (forall id <- s.tasks :: s.tasks[id].job.host != host ==> r.tasks[id] == s.tasks[id])
    && (forall h :: h != host ==> Ids(r.running, h) == Ids(s.running, h) && Ids(r.queued, h) == Ids(s.queued, h))
    && (forall k: LockKey :: k.host != host ==> (k in r.locks.locks <==> k in s.locks.locks))
    && (forall k <- s.locks.locks :: k.host != host && k in r.locks.locks ==> r.locks.locks[k] == s.locks.locks[k])
  }

  // ---------------------------------------------------------------- blockers

  /** The owners of conflicting locks are tasks running on the host. */
  lemma ConflictsHaveOwners(s: State, j: Job)
    requires LocksOwned(s) && LockConflicts(s.locks, j) != []
    ensures OwnersOf(s.tasks, LockConflicts(s.locks, j)) != []
    ensures forall o <- OwnersOf(s.tasks, LockConflicts(s.locks, j)) ::
              o in s.tasks && s.tasks[o].status == Running && s.tasks[o].job.host == j.host
  {
    var held := LockConflicts(s.locks, j);
    forall l <- held
      ensures l.at in s.locks.locks && s.locks.locks[l.at] == l && l.at.host == j.host
    {
    }
    OwnersOfOwned(s, held, j.host);
  }

  lemma OwnersOfOwned(s: State, held: seq<Lock>, host: HostId)
    requires LocksOwned(s)
    requires forall l <- held :: l.at in s.locks.locks && s.locks.locks[l.at] == l && l.at.host == host
    ensures held != [] ==> OwnersOf(s.tasks, held) != []
    ensures forall o <- OwnersOf(s.tasks, held) ::
              o in s.tasks && s.tasks[o].status == Running && s.tasks[o].job.host == host
  {
    if held != [] {
      assert held[0] in held;
      OwnersOfOwned(s, held[1..], host);
    }
  }

  /** A conflicting lock has a running owner, so it blocks. */
  lemma ConflictsBlock(s: State, j: Job, pending: Option<TaskId>)
    requires Core(s, pending)
    ensures LockConflicts(s.locks, j) != [] ==> Blockers(s, j) != []
  {
    if LockConflicts(s.locks, j) != [] {
      ConflictsHaveOwners(s, j);
      var o := OwnersOf(s.tasks, LockConflicts(s.locks, j))[0];
      assert o in OwnersOf(s.tasks, LockConflicts(s.locks, j));
      assert o in Ids(s.running, j.host);
    }
  }

  /** In the invariant's states, having no blockers means having no competitor that matters. */
  lemma NoBlockersMeans(s: State, j: Job, pending: Option<TaskId>)
    requires Core(s, pending) && Blockers(s, j) == []
    ensures LockConflicts(s.locks, j) == []
    ensures j.cost == Exclusive ==> forall id <- Competing(s) :: s.tasks[id].job.host != j.host
    ensures j.cost == Large ==> forall id <- CompetingHeavy(s) :: s.tasks[id].job.host != j.host
    ensures j.cost == Tiny ==> forall id <- CompetingExclusive(s) :: s.tasks[id].job.host != j.host
  {
    var ids := Ids(s.running, j.host);
    ConflictsBlock(s, j, pending);
    forall id <- Competing(s) | s.tasks[id].job.host == j.host
      ensures id in ids
    {
    }
    if j.cost == Exclusive {
      assert forall id <- Competing(s) :: id in ids ==> id in Picked(ids, Competing(s));
    } else if j.cost == Large {
      assert forall id <- CompetingHeavy(s) :: id in ids ==> id in Picked(ids, CompetingHeavy(s));
    } else if j.cost == Tiny {
      assert forall id <- CompetingExclusive(s) :: id in ids ==> id in Picked(ids, CompetingExclusive(s));
    }
  }

  lemma OwnersSame(a: map<TaskId, Task>, b: map<TaskId, Task>, held: seq<Lock>)
    requires forall l <- held :: l.ownerTask.Some? ==> (l.ownerTask.value in a <==> l.ownerTask.value in b)
    ensures OwnersOf(a, held) == OwnersOf(b, held)
  {
    if held != [] {
      assert held[0] in held;
      OwnersSame(a, b, held[1..]);
    }
  }

  lemma PickedAll(ids: seq<TaskId>, a: set<TaskId>, b: set<TaskId>)
    requires forall id <- ids :: id in a <==> id in b
    ensures Picked(ids, a) == Picked(ids, b)
  {
    if ids != [] {
      assert ids[0] in ids;
      PickedAll(ids[1..], a, b);
    }
  }

  /** Blockers depend only on what the host's running index says, on its competitors and on its locks. */
  lemma BlockersSame(s: State, r: State, j: Job)
    requires r.limits == s.limits
    requires Ids(r.running, j.host) == Ids(s.running, j.host)
    requires forall id <- Ids(s.running, j.host) :: id in Competing(r) <==> id in Competing(s)
    requires forall id <- Competing(s) :: id in r.tasks && r.tasks[id].job == s.tasks[id].job
    requires LockConflicts(r.locks, j) == LockConflicts(s.locks, j)
    requires forall l <- LockConflicts(s.locks, j) ::
               l.ownerTask.Some? ==> (l.ownerTask.value in s.tasks <==> l.ownerTask.value in r.tasks)
    ensures Blockers(r, j) == Blockers(s, j)
  {
    var ids := Ids(s.running, j.host);
    OwnersSame(s.tasks, r.tasks, LockConflicts(s.locks, j));
    PickedAll(ids, Competing(s), Competing(r));
    PickedAll(ids, CompetingHeavy(s), CompetingHeavy(r));
    PickedAll(ids, CompetingExclusive(s), CompetingExclusive(r));
  }

  lemma PickedPicked(ids: seq<TaskId>, a: set<TaskId>, b: set<TaskId>)
    requires b <= a
    ensures Picked(Picked(ids, a), b) == Picked(ids, b)
  {
  }

  lemma PickedNone(ids: seq<TaskId>, a: set<TaskId>)
    requires forall id <- ids :: id !in a
    ensures Picked(ids, a) == []
  {
    if ids != [] {
      assert ids[0] in ids;
      PickedNone(ids[1..], a);
    }
  }

  /** `FastBlockers` with the counts a pump pass computes. */
  function CountedBlockers(s: State, j: Job): seq<TaskId> {
    var nonBypass := Picked(Ids(s.running, j.host), Competing(s));
    FastBlockers(s, j, nonBypass, |nonBypass|,
                 |Picked(nonBypass, CompetingHeavy(s))|, |Picked(nonBypass, CompetingExclusive(s))|)
  }

  /** What the cost rules alone would answer. */
  function CostBlockers(s: State, j: Job): seq<TaskId> {
    Blockers(s.(locks := EMPTY_TABLE), j)
  }

  /** The cost rules, in terms of the competitors of the host. */
  lemma CostBlockersPicked(s: State, j: Job)
    requires Ids(s.running, j.host) != []
    ensures var nonBypass := Picked(Ids(s.running, j.host), Competing(s));
            CostBlockers(s, j) ==
            match j.cost
            case Tiny => Picked(nonBypass, CompetingExclusive(s))
            case Large => Picked(nonBypass, CompetingHeavy(s))
            case Exclusive => nonBypass
            case _ => if |nonBypass| >= s.limits.maxTotalRunning then nonBypass else []
  {
    var ids, bare := Ids(s.running, j.host), s.(locks := EMPTY_TABLE);
    PickedPicked(ids, Competing(s), CompetingHeavy(s));
    PickedPicked(ids, Competing(s), CompetingExclusive(s));
    assert Competing(bare) == Competing(s);
    assert CompetingHeavy(bare) == CompetingHeavy(s) && CompetingExclusive(bare) == CompetingExclusive(s);
  }

  /** The counted check: the owners of conflicting locks if any is known, else the cost rules. */
  lemma CountedIs(s: State, j: Job)
    ensures var owners := OwnersOf(s.tasks, LockConflicts(s.locks, j));
            CountedBlockers(s, j) == if owners != [] then owners else CostBlockers(s, j)
  {
    if Ids(s.running, j.host) != [] {
      CostBlockersPicked(s, j);
    }
  }

  /**
   The two checks agree exactly when: with nothing indexed as running, no known
   task owns a conflicting lock; otherwise, a conflict has a known owner or the
   cost rules block nothing.
   */
  lemma FastAgreesExactlyWhen(s: State, j: Job)
    ensures CountedBlockers(s, j) == Blockers(s, j) <==>
            var conflicts := LockConflicts(s.locks, j);
            if Ids(s.running, j.host) == [] then OwnersOf(s.tasks, conflicts) == []
            else conflicts == [] || OwnersOf(s.tasks, conflicts) != [] || CostBlockers(s, j) == []
  {
    CountedIs(s, j);
    PlainIs(s, j);
  }

  lemma PlainIs(s: State, j: Job)
    ensures var conflicts := LockConflicts(s.locks, j);
            Blockers(s, j) ==
            if Ids(s.running, j.host) != [] && conflicts != [] then OwnersOf(s.tasks, conflicts) else CostBlockers(s, j)
    ensures Ids(s.running, j.host) == [] ==> CostBlockers(s, j) == []
  {
    var bare := s.(locks := EMPTY_TABLE);
    assert Competing(bare) == Competing(s);
    assert CompetingHeavy(bare) == CompetingHeavy(s) && CompetingExclusive(bare) == CompetingExclusive(s);
  }

  /** With every lock owned by a running task, the pump's check is the plain one. */
  lemma FastIsPlain(s: State, j: Job, pending: Option<TaskId>)
    requires Core(s, pending)
    ensures CountedBlockers(s, j) == Blockers(s, j)
  {
    FastAgreesExactlyWhen(s, j);
    if LockConflicts(s.locks, j) != [] {
      ConflictsHaveOwners(s, j);
      var o := OwnersOf(s.tasks, LockConflicts(s.locks, j))[0];
      assert o in OwnersOf(s.tasks, LockConflicts(s.locks, j));
    }
  }

  // ---------------------------------------------------------------- single moves

  lemma DropIdEffect(ix: Index, host: HostId, id: TaskId)
    ensures forall h, u :: u in Ids(DropId(ix, host, id), h) <==> u in Ids(ix, h) && !(h == host && u == id)
    ensures forall h :: h != host ==> Ids(DropId(ix, host, id), h) == Ids(ix, h)
  {
  }

  lemma AddIdEffect(ix: Index, host: HostId, id: TaskId)
    ensures forall h, u :: u in Ids(AddId(ix, host, id), h) <==> u in Ids(ix, h) || (h == host && u == id)
    ensures forall h :: h != host ==> Ids(AddId(ix, host, id), h) == Ids(ix, h)
  {
  }

  /** A task without locks gets the one it needs exactly when nobody holds it, and then only that lock is new. */
  lemma LockOutcome(s: State, id: TaskId)
    requires LocksOwned(s) && LocksLive(s) && id in s.tasks
    requires forall k <- s.locks.locks :: s.locks.locks[k].ownerTask != Some(id)
    ensures var (r, ok) := WithLocks(s, id); var need := NeededLock(s.tasks[id].job);
            && (ok <==> LockFree(s, s.tasks[id].job))
            && r == s.(locks := r.locks, lockIds := r.lockIds)
            && Consistent(r.locks)
            && (!ok || need.None? ==> r == s)
            && (ok && need.Some? ==>
                  && need.value in r.locks.locks
                  && var l := r.locks.locks[need.value];
                  && r.locks.locks == s.locks.locks[need.value := l]
                  && l.at == need.value && l.ownerTask == Some(id) && l.ownerAgent == s.tasks[id].job.agent
                  && l.expiresAt == s.now + DEFAULT_TTL
                  && r.lockIds == s.lockIds[id := [l.id]])
  {
    var j := s.tasks[id].job;
    if NeededLock(j).Some? {
      var k := NeededLock(j).value;
      NothingExpired(s.locks, s.now);
      AcquireKeepsConsistent(s.locks, k, j.agent, Some(id), s.now, DEFAULT_TTL);
    }
  }

  /** An exclusive task that the scheduler started holds the host lock, so it stands in the way of every heavy job. */
  lemma OwnExclusiveBlocksHeavy(s: State, j: Job, x: TaskId, pending: Option<TaskId>)
    requires Core(s, pending) && IsHeavy(j.cost)
    requires x in CompetingExclusive(s) && s.tasks[x].job.host == j.host && !s.tasks[x].job.external
    ensures x in Blockers(s, j)
  {
    var at := LockKey(HostScope, j.host, j.host);
    assert x in Ids(s.running, j.host) && Holds(s, x, at);
    if LockConflicts(s.locks, j) != [] {
      HostOwnerIsListed(s, j, x);
    }
  }

  lemma HostOwnerIsListed(s: State, j: Job, x: TaskId)
    requires x in s.tasks && IsHeavy(j.cost) && j.cwd.Some? && Holds(s, x, LockKey(HostScope, j.host, j.host))
    ensures x in OwnersOf(s.tasks, LockConflicts(s.locks, j))
  {
    var held, l := LockConflicts(s.locks, j), s.locks.locks[LockKey(HostScope, j.host, j.host)];
    assert held == [l] + held[1..];
    assert OwnersOf(s.tasks, held) == [x] + OwnersOf(s.tasks, held[1..]);
  }

  /** With no blockers, what runs beside the task is admissible. */
  lemma UnblockedIsAdmitted(s: State, id: TaskId)
    requires Core(s, Some(id)) && id in s.tasks && Blockers(s, s.tasks[id].job) == []
    ensures AdmittedStart(RecordOf(s, id))
    ensures BesideExclusive(RecordOf(s, id)) ==> LightBesideExclusive(RecordOf(s, id), s.limits)
    ensures BesideOwnExclusive(RecordOf(s, id)) ==> !IsHeavy(s.tasks[id].job.cost)
    ensures IsHeavy(s.tasks[id].job.cost) ==>
              forall a <- CompetingHeavy(s) :: s.tasks[a].job.host != s.tasks[id].job.host
  {
    var job := s.tasks[id].job;
    NoBlockersMeans(s, job, Some(id));
    var ids := Picked(Ids(s.running, job.host), Competing(s));
    var beside := RecordOf(s, id).beside;
    forall i | 0 <= i < |beside|
      ensures job.cost != Exclusive
      ensures job.cost == Large ==> !IsHeavy(beside[i].cost)
      ensures job.cost == Tiny ==> beside[i].cost != Exclusive
    {
      var x := ids[i];
      assert x in ids && beside[i] == s.tasks[x].job;
      assert x in CompetingHeavy(s) <==> IsHeavy(s.tasks[x].job.cost);
      assert x in CompetingExclusive(s) <==> s.tasks[x].job.cost == Exclusive;
    }
  }

  /** The state right after a waiting task got its lock and was set running. */
  function AfterLaunch(s: State, id: TaskId): State
    requires id in s.tasks
  {
    Launched(WithLocks(s, id).0, id, RecordOf(s, id))
  }

  lemma LaunchEffect(s: State, id: TaskId)
    requires Core(s, Some(id)) && id in s.tasks && s.tasks[id].status == Queued && LockFree(s, s.tasks[id].job)
    ensures var r := AfterLaunch(s, id); var t := s.tasks[id];
            && r.tasks == s.tasks[id := t.(status := Running, startedAt := Some(s.now))]
            && r.running == AddId(s.running, t.job.host, id)
            && r.queued == DropId(s.queued, t.job.host, id)
            && r.history == s.history + [RecordOf(s, id)]
            && r.limits == s.limits && r.now == s.now && r.lastRenew == s.lastRenew
            && (r.locks, r.lockIds) == (WithLocks(s, id).0.locks, WithLocks(s, id).0.lockIds)
  {
    LockOutcome(s, id);
  }

  lemma LaunchKeepsOwned(s: State, id: TaskId)
    requires Core(s, Some(id)) && id in s.tasks && s.tasks[id].status == Queued && LockFree(s, s.tasks[id].job)
    ensures LocksOwned(AfterLaunch(s, id))
  {
    LockOutcome(s, id);
    LaunchEffect(s, id);
    var r := AfterLaunch(s, id);
    forall k <- s.locks.locks
      ensures s.locks.locks[k].ownerTask.Some? && s.locks.locks[k].ownerTask.value != id
    {
    }
  }

  lemma LaunchKeepsHeld(s: State, id: TaskId)
    requires Core(s, Some(id)) && id in s.tasks && s.tasks[id].status == Queued && LockFree(s, s.tasks[id].job)
    ensures HoldersHold(AfterLaunch(s, id)) && LocksLive(AfterLaunch(s, id))
  {
    LockOutcome(s, id);
    LaunchEffect(s, id);
    var r := AfterLaunch(s, id);
    forall u <- r.tasks | r.tasks[u].status == Running && !r.tasks[u].job.external && NeededLock(r.tasks[u].job).Some?
      ensures Holds(r, u, NeededLock(r.tasks[u].job).value)
    {
      assert u != id ==> Holds(s, u, NeededLock(s.tasks[u].job).value);
    }
  }

  lemma LaunchKeepsCore(s: State, id: TaskId)
    requires Core(s, Some(id)) && id in s.tasks && s.tasks[id].status == Queued && LockFree(s, s.tasks[id].job)
    ensures Core(AfterLaunch(s, id), None)
  {
    LaunchKeepsOwned(s, id);
    LaunchKeepsHeld(s, id);
    LaunchEffect(s, id);
    DropIdEffect(s.queued, s.tasks[id].job.host, id);
    AddIdEffect(s.running, s.tasks[id].job.host, id);
  }

  /** What must be true of a start for the history and the limits to stay good. */
  ghost predicate MayStart(s: State, id: TaskId, strict: bool)
    requires id in s.tasks
  {
    var job := s.tasks[id].job;
    && FairStart(RecordOf(s, id), s.limits)
    && (strict ==> AdmittedStart(RecordOf(s, id)))
    && (strict && IsHeavy(job.cost) && !job.bypass ==>
          forall a <- CompetingHeavy(s) :: s.tasks[a].job.host != job.host)
  }

  lemma LaunchKeepsOtherLocks(s: State, id: TaskId)
    requires Core(s, Some(id)) && id in s.tasks && s.tasks[id].status == Queued && LockFree(s, s.tasks[id].job)
    ensures var r := AfterLaunch(s, id); var host := s.tasks[id].job.host;
            && (forall k: LockKey :: k.host != host ==> (k in r.locks.locks <==> k in s.locks.locks))
            && (forall k <- s.locks.locks :: k in r.locks.locks && r.locks.locks[k] == s.locks.locks[k])
  {
    LockOutcome(s, id);
  }

  lemma LaunchStaysHome(s: State, id: TaskId)
    requires Core(s, Some(id)) && id in s.tasks && s.tasks[id].status == Queued && LockFree(s, s.tasks[id].job)
    ensures Away(s, AfterLaunch(s, id), s.tasks[id].job.host)
  {
    LaunchKeepsOtherLocks(s, id);
    LaunchEffect(s, id);
    AddIdEffect(s.running, s.tasks[id].job.host, id);
    DropIdEffect(s.queued, s.tasks[id].job.host, id);
  }

  lemma LaunchKeepsHistory(s: State, id: TaskId, strict: bool)
    requires Good(s, Some(id), strict) && id in s.tasks && s.tasks[id].status == Queued
    requires LockFree(s, s.tasks[id].job) && MayStart(s, id, strict)
    ensures AllFair(AfterLaunch(s, id)) && (strict ==> AllAdmitted(AfterLaunch(s, id)))
  {
    LaunchEffect(s, id);
    if strict {
      assert CompetingHeavy(AfterLaunch(s, id)) <= CompetingHeavy(s) + {id};
    }
  }

  lemma LaunchKeeps(s: State, id: TaskId, strict: bool)
    requires Good(s, Some(id), strict) && id in s.tasks && s.tasks[id].status == Queued
    requires LockFree(s, s.tasks[id].job) && MayStart(s, id, strict)
    ensures Good(AfterLaunch(s, id), None, strict)
  {
    LaunchKeepsCore(s, id);
    LaunchKeepsHistory(s, id, strict);
  }

  /** The running tasks that compete for the hosts, and the order they are indexed in, are the same. */
  ghost predicate SameCompetitors(s: State, r: State) {
    && r.running == s.running && Competing(r) == Competing(s)
    && CompetingHeavy(r) == CompetingHeavy(s) && CompetingExclusive(r) == CompetingExclusive(s)
  }

  /** Every task but `id` is as before, its queue position aside, and `id` is waiting or given up. */
  ghost predicate Requeues(s: State, r: State, id: TaskId) {
    && id in s.tasks && s.tasks[id].status == Queued
    && OnlyQueueTouched(s, r)
    && r.tasks.Keys == s.tasks.Keys
    && (forall u <- s.tasks :: u != id ==> r.tasks[u].(queuePosition := s.tasks[u].queuePosition) == s.tasks[u])
    && (forall u <- s.tasks :: u != id && s.tasks[u].job.host != s.tasks[id].job.host ==> r.tasks[u] == s.tasks[u])
    && r.tasks[id].job == s.tasks[id].job
    && (r.tasks[id].status == Cancelled
        || (r.tasks[id].status == Queued && r.tasks[id].queuedAt == Some(s.now) && id in Ids(r.queued, s.tasks[id].job.host)))
    && (forall h, u :: u in Ids(r.queued, h) <==> u in Ids(s.queued, h) || (h == s.tasks[id].job.host && u == id))
    && (forall h :: h != s.tasks[id].job.host ==> Ids(r.queued, h) == Ids(s.queued, h))
  }

  lemma RequeueEffect(s: State, id: TaskId)
    requires id in s.tasks && s.tasks[id].status == Queued
    ensures Requeues(s, Requeued(s, id), id)
  {
    EnqueueEffect(Indexed(s, id), id);
    AddIdEffect(s.queued, s.tasks[id].job.host, id);
    AddIdEffect(Indexed(s, id).queued, s.tasks[id].job.host, id);
  }

  lemma RequeueKeepsLocks(s: State, r: State, id: TaskId)
    requires LocksOwned(s) && HoldersHold(s) && Requeues(s, r, id)
    ensures LocksOwned(r) && HoldersHold(r)
  {
  }

  lemma RequeueKeepsCover(s: State, r: State, id: TaskId)
    requires IndexesCover(s, Some(id)) && Requeues(s, r, id)
    ensures IndexesCover(r, None)
  {
  }

  lemma RequeueKeepsCore(s: State, r: State, id: TaskId)
    requires Core(s, Some(id)) && Requeues(s, r, id)
    ensures Core(r, None)
  {
    RequeueKeepsLocks(s, r, id);
    RequeueKeepsCover(s, r, id);
  }

  lemma RequeueKeepsCompetitors(s: State, r: State, id: TaskId)
    requires Requeues(s, r, id)
    ensures SameCompetitors(s, r)
  {
    assert Competing(r) == Competing(s);
    assert CompetingHeavy(r) == CompetingHeavy(s);
    assert CompetingExclusive(r) == CompetingExclusive(s);
  }

  lemma RequeueStaysHome(s: State, r: State, id: TaskId)
    requires Requeues(s, r, id)
    ensures Away(s, r, s.tasks[id].job.host)
  {
  }

  lemma RequeueKeeps(s: State, r: State, id: TaskId, strict: bool)
    requires Good(s, Some(id), strict) && Requeues(s, r, id)
    ensures Good(r, None, strict)
    ensures Away(s, r, s.tasks[id].job.host)
    ensures SameCompetitors(s, r)
  {
    RequeueKeepsCore(s, r, id);
    RequeueKeepsCompetitors(s, r, id);
    RequeueStaysHome(s, r, id);
  }

  /** A task that ends gives up its locks; its id may or may not leave the indexes. */
  ghost predicate Ends(s: State, r: State, id: TaskId) {
    && id in s.tasks && id in r.tasks
    && r.tasks == s.tasks[id := r.tasks[id]]
    && r.tasks[id].job == s.tasks[id].job && IsFinished(r.tasks[id].status)
    && r.locks == ReleasedForTask(s.locks, id) && r.lockIds == s.lockIds - {id}
    && r.limits == s.limits && r.now == s.now && r.lastRenew == s.lastRenew && r.history == s.history
    && (forall h, u :: u in Ids(r.running, h) ==> u in Ids(s.running, h))
    && (forall h, u :: u in Ids(r.queued, h) ==> u in Ids(s.queued, h))
    && (forall h, u :: u != id && u in Ids(s.running, h) ==> u in Ids(r.running, h))
    && (forall h, u :: u != id && u in Ids(s.queued, h) ==> u in Ids(r.queued, h))
    && (forall h :: h != s.tasks[id].job.host ==> Ids(r.running, h) == Ids(s.running, h) && Ids(r.queued, h) == Ids(s.queued, h))
  }

  lemma EndKeepsOwned(s: State, r: State, id: TaskId)
    requires LocksOwned(s) && Ends(s, r, id)
    ensures LocksOwned(r)
    ensures forall k :: k in r.locks.locks <==> k in s.locks.locks && s.locks.locks[k].ownerTask != Some(id)
    ensures forall k <- r.locks.locks :: r.locks.locks[k] == s.locks.locks[k]
  {
    WithoutKeepsConsistent(s.locks, LocksOfTask(s.locks, id));
  }

  lemma EndKeepsCover(s: State, r: State, id: TaskId)
    requires IndexesCover(s, None) && Ends(s, r, id)
    ensures IndexesCover(r, None)
  {
  }

  lemma EndKeepsCore(s: State, r: State, id: TaskId)
    requires Core(s, None) && Ends(s, r, id)
    ensures Core(r, None)
  {
    EndKeepsCover(s, r, id);
    EndKeepsOwned(s, r, id);
    forall u <- r.tasks | r.tasks[u].status == Running && !r.tasks[u].job.external && NeededLock(r.tasks[u].job).Some?
      ensures Holds(r, u, NeededLock(r.tasks[u].job).value)
    {
      assert Holds(s, u, NeededLock(s.tasks[u].job).value);
    }
  }

  lemma EndKeepsOtherLocks(s: State, r: State, id: TaskId)
    requires LocksOwned(s) && Ends(s, r, id)
    ensures forall k: LockKey :: k.host != s.tasks[id].job.host ==> (k in r.locks.locks <==> k in s.locks.locks)
    ensures forall k <- r.locks.locks :: k in s.locks.locks && r.locks.locks[k] == s.locks.locks[k]
  {
    EndKeepsOwned(s, r, id);
  }

  lemma EndStaysHome(s: State, r: State, id: TaskId)
    requires Core(s, None) && Ends(s, r, id)
    ensures Away(s, r, s.tasks[id].job.host)
  {
    EndKeepsOtherLocks(s, r, id);
  }

  lemma EndKeeps(s: State, r: State, id: TaskId, strict: bool)
    requires Good(s, None, strict) && Ends(s, r, id)
    ensures Good(r, None, strict) && Away(s, r, s.tasks[id].job.host)
  {
    EndKeepsCore(s, r, id);
    EndStaysHome(s, r, id);
    assert CompetingHeavy(r) <= CompetingHeavy(s);
  }

  lemma SettledEnds(s: State, id: TaskId, status: Status, code: Option<int>)
    requires id in s.tasks && IsFinished(status)
    ensures Ends(s, Settled(s, id, status, code), id)
  {
    DropIdEffect(s.running, s.tasks[id].job.host, id);
    DropIdEffect(s.queued, s.tasks[id].job.host, id);
  }

  // ---------------------------------------------------------------- queue order and positions

  ghost predicate InOrder(tasks: map<TaskId, Task>, ids: seq<TaskId>) {
    forall i, j :: 0 <= i < j < |ids| ==> QueueKey(tasks, ids[i]) <= QueueKey(tasks, ids[j])
  }

  lemma InsertSorts(tasks: map<TaskId, Task>, id: TaskId, ids: seq<TaskId>)
    requires InOrder(tasks, ids)
    ensures InOrder(tasks, Insert(tasks, id, ids))
  {
    if ids != [] && QueueKey(tasks, id) > QueueKey(tasks, ids[0]) {
      InsertSorts(tasks, id, ids[1..]);
      var rest := Insert(tasks, id, ids[1..]);
      forall u <- rest ensures QueueKey(tasks, ids[0]) <= QueueKey(tasks, u) {
        assert u in multiset(rest);
        assert u == id || u in ids[1..];
      }
    }
  }

  lemma SortSorts(tasks: map<TaskId, Task>, ids: seq<TaskId>)
    ensures InOrder(tasks, SortByQueuedAt(tasks, ids))
  {
    if ids != [] {
      SortSorts(tasks, ids[1..]);
      InsertSorts(tasks, ids[0], SortByQueuedAt(tasks, ids[1..]));
    }
  }

  lemma InsertSame(a: map<TaskId, Task>, b: map<TaskId, Task>, id: TaskId, ids: seq<TaskId>)
    requires QueueKey(a, id) == QueueKey(b, id) && forall u <- ids :: QueueKey(a, u) == QueueKey(b, u)
    ensures Insert(a, id, ids) == Insert(b, id, ids)
  {
    if ids != [] {
      assert ids[0] in ids;
      InsertSame(a, b, id, ids[1..]);
    }
  }

  lemma SortSame(a: map<TaskId, Task>, b: map<TaskId, Task>, ids: seq<TaskId>)
    requires forall u <- ids :: QueueKey(a, u) == QueueKey(b, u)
    ensures SortByQueuedAt(a, ids) == SortByQueuedAt(b, ids)
  {
    if ids != [] {
      assert ids[0] in ids;
      SortSame(a, b, ids[1..]);
      var rest := SortByQueuedAt(a, ids[1..]);
      SameElements(rest, ids[1..]);
      InsertSame(a, b, ids[0], rest);
    }
  }

  /** The queue of a host depends on its waiting tasks, in index order, and their queueing times. */
  lemma QueueSame(s: State, r: State, host: HostId)
    requires WaitingOn(r, host) == WaitingOn(s, host)
    requires Picked(Ids(r.queued, host), WaitingOn(s, host)) == Picked(Ids(s.queued, host), WaitingOn(s, host))
    requires forall id <- WaitingOn(s, host) :: r.tasks[id].queuedAt == s.tasks[id].queuedAt
    ensures QueuedHere(r, host) == QueuedHere(s, host)
  {
    SortSame(s.tasks, r.tasks, Picked(Ids(s.queued, host), WaitingOn(s, host)));
  }

  lemma NumberingNumbers(tasks: map<TaskId, Task>, q: seq<TaskId>, i: nat)
    requires i <= |q| && Distinct(q) && forall id <- q :: id in tasks
    ensures var r := NumberFrom(tasks, q, i);
            && (forall j :: 0 <= j < i ==> q[j] in q && r[q[j]] == tasks[q[j]])
            && (forall j :: i <= j < |q| ==> q[j] in q && r[q[j]].queuePosition == Some(j + 1))
    decreases |q| - i
  {
    if i < |q| {
      NumberingNumbers(tasks[q[i] := tasks[q[i]].(queuePosition := Some(i + 1))], q, i + 1);
    }
  }

  lemma RenumberedIsNumbered(s: State, host: HostId)
    ensures Numbered(Renumbered(s, host), host)
  {
    RenumberEffect(s, host);
    QueueSame(s, Renumbered(s, host), host);
    NumberingNumbers(s.tasks, QueuedHere(s, host), 0);
  }

  /** Queue positions matter to nothing but the numbering. */
  lemma PositionsDoNotMatter(s: State, r: State, strict: bool)
    requires Good(s, None, strict) && r == s.(tasks := r.tasks) && SameButPositions(s.tasks, r.tasks)
    ensures Good(r, None, strict)
    ensures forall h :: Conserving(s, h) ==> Conserving(r, h)
  {
    assert Competing(r) == Competing(s);
    assert CompetingHeavy(r) == CompetingHeavy(s);
    assert LocksOwned(r);
    assert HoldersHold(r);
    forall h | Conserving(s, h) ensures Conserving(r, h) {
      forall id <- WaitingOn(r, h) ensures !Startable(r, r.tasks[id].job) {
        assert id in WaitingOn(s, h);
        BlockersSame(s, r, s.tasks[id].job);
      }
    }
  }

  // ---------------------------------------------------------------- start, finish, scan, pump

  lemma AwayTrans(a: State, b: State, c: State, host: HostId)
    requires Away(a, b, host) && Away(b, c, host)
    ensures Away(a, c, host)
  {
  }

  /** The rest of a queue snapshot: in order, and every waiting task outside it cannot start. */
  ghost predicate ScanReady(s: State, host: HostId, q: seq<TaskId>) {
    && (forall id <- q :: id in WaitingOn(s, host))
    && Distinct(q) && InOrder(s.tasks, q)
    && (forall id <- WaitingOn(s, host) :: id in q || !Startable(s, s.tasks[id].job))
  }

  lemma SnapshotIsReady(s: State, host: HostId)
    requires Core(s, None)
    ensures ScanReady(s, host, QueuedHere(s, host))
  {
    SortSorts(s.tasks, Picked(Ids(s.queued, host), WaitingOn(s, host)));
  }

  /** The head of a snapshot, if startable, is the earliest startable task of its host. */
  lemma HeadOvertakesNone(s: State, host: HostId, q: seq<TaskId>, strict: bool)
    requires Good(s, None, strict) && ScanReady(s, host, q) && q != []
    requires q[0] in s.tasks && Blockers(s, s.tasks[q[0]].job) == []
    ensures MayStart(s, q[0], strict)
  {
    var id := q[0];
    assert id in q && Core(s, Some(id));
    UnblockedIsAdmitted(s, id);
    forall u <- WaitingOn(s, host) | u != id && Startable(s, s.tasks[u].job)
      ensures !QueuedBefore(s.tasks[u], s.tasks[id])
    {
      assert u in q;
      var i :| 0 <= i < |q| && q[i] == u;
      assert QueueKey(s.tasks, q[0]) <= QueueKey(s.tasks, q[i]);
    }
    assert Overtaken(s, id) == {};
  }

  /** A start that gets its lock is a launch, and then what the runner reports at once. */
  lemma StartIsLaunch(s: State, id: TaskId)
    requires id in s.tasks && s.tasks[id].status == Queued && WithLocks(s, id).1
    ensures var launch := s.tasks[id].job.launch; var s2 := AfterLaunch(s, id);
            Start(s, id) == (if launch.StaysRunning? then s2 else Finish(s2, id, launch.code), true)
  {
  }

  lemma RefusedStartKeeps(s: State, id: TaskId, strict: bool)
    requires Good(s, Some(id), strict) && id in s.tasks && s.tasks[id].status == Queued
    requires !LockFree(s, s.tasks[id].job)
    ensures var r := Requeued(s, id);
            Start(s, id) == (r, false) && Good(r, None, strict) && Away(s, r, s.tasks[id].job.host)
  {
    LockOutcome(s, id);
    RequeueEffect(s, id);
    RequeueKeeps(s, Requeued(s, id), id, strict);
  }

  lemma LaunchedStartKeeps(s: State, id: TaskId, strict: bool)
    requires Good(s, Some(id), strict) && id in s.tasks && s.tasks[id].status == Queued
    requires LockFree(s, s.tasks[id].job) && MayStart(s, id, strict)
    ensures var r := AfterLaunch(s, id); var host := s.tasks[id].job.host;
            && WithLocks(s, id).1 && Good(r, None, strict) && Away(s, r, host)
            && id in r.tasks && r.tasks[id].status == Running && r.tasks[id].job == s.tasks[id].job
            && WaitingOn(r, host) < WaitingOn(s, host)
  {
    LockOutcome(s, id);
    LaunchKeeps(s, id, strict);
    LaunchStaysHome(s, id);
    LaunchEffect(s, id);
    assert id in WaitingOn(s, s.tasks[id].job.host);
  }

  lemma StartKeeps(s: State, id: TaskId, strict: bool)
    requires Good(s, Some(id), strict) && id in s.tasks && s.tasks[id].status == Queued
    requires LockFree(s, s.tasks[id].job) ==> MayStart(s, id, strict)
    ensures var (r, started) := Start(s, id); var host := s.tasks[id].job.host;
            && Good(r, None, strict) && Away(s, r, host)
            && (started <==> LockFree(s, s.tasks[id].job))
            && (!started ==> r == Requeued(s, id))
            && (started && s.tasks[id].job.launch.StaysRunning? ==> r == AfterLaunch(s, id))
            && (started && !s.tasks[id].job.launch.StaysRunning? ==> Conserving(r, host) && Numbered(r, host))
    decreases WaitingOn(s, s.tasks[id].job.host), 0, 0
  {
    if LockFree(s, s.tasks[id].job) {
      LaunchedStartKeeps(s, id, strict);
      StartIsLaunch(s, id);
      if s.tasks[id].job.launch.ReportsAtOnce? {
        FinishKeeps(AfterLaunch(s, id), id, s.tasks[id].job.launch.code, strict);
        AwayTrans(s, AfterLaunch(s, id), Start(s, id).0, s.tasks[id].job.host);
      }
    } else {
      RefusedStartKeeps(s, id, strict);
    }
  }

  lemma FinishKeeps(s: State, id: TaskId, code: int, strict: bool)
    requires Good(s, None, strict)
    ensures Good(Finish(s, id, code), None, strict)
    ensures id in s.tasks ==> Away(s, Finish(s, id, code), s.tasks[id].job.host)
    ensures id in s.tasks && s.tasks[id].status != Cancelled ==>
              Conserving(Finish(s, id, code), s.tasks[id].job.host) && Numbered(Finish(s, id, code), s.tasks[id].job.host)
    decreases if id in s.tasks then WaitingOn(s, s.tasks[id].job.host) else {}, 3, 0
  {
    if id in s.tasks && s.tasks[id].status != Cancelled {
      var host := s.tasks[id].job.host;
      var s1 := Settled(s, id, StatusFor(code), Some(code));
      SettledEnds(s, id, StatusFor(code), Some(code));
      EndKeeps(s, s1, id, strict);
      assert WaitingOn(s1, host) <= WaitingOn(s, host);
      PumpKeeps(s1, host, strict);
      AwayTrans(s, s1, Finish(s, id, code), host);
    }
  }

  lemma ScanKeeps(s: State, host: HostId, q: seq<TaskId>, strict: bool)
    requires Good(s, None, strict) && ScanReady(s, host, q)
    ensures var (r, started) := Scan(s, host, q);
            && Good(r, None, strict) && Away(s, r, host)
            && (!started ==> Conserving(r, host))
    decreases WaitingOn(s, host), 1, |q|, 1
  {
    if q != [] {
      assert q[0] in q;
      if Blockers(s, s.tasks[q[0]].job) != [] {
        TailIsReady(s, host, q);
        ScanKeeps(s, host, q[1..], strict);
      } else {
        HeadOvertakesNone(s, host, q, strict);
        StartKeeps(s, q[0], strict);
        var (s1, started) := Start(s, q[0]);
        if started {
          ScanStarted(s1, q[0], host, strict);
          AwayTrans(s, s1, Scan(s, host, q).0, host);
        } else {
          RefusalKeeps(s, host, q, strict);
          ScanRestKeeps(s, s1, host, q[1..], strict);
        }
      }
    }
  }

  lemma ScanRestKeeps(s: State, s1: State, host: HostId, q: seq<TaskId>, strict: bool)
    requires Good(s1, None, strict) && Away(s, s1, host) && ScanReady(s1, host, q)
    requires WaitingOn(s1, host) <= WaitingOn(s, host)
    ensures var (r, started) := Scan(s1, host, q);
            && Good(r, None, strict) && Away(s, r, host)
            && (!started ==> Conserving(r, host))
    decreases WaitingOn(s, host), 1, |q|, 2
  {
    ScanKeeps(s1, host, q, strict);
    AwayTrans(s, s1, Scan(s1, host, q).0, host);
  }

  lemma RefusalKeeps(s: State, host: HostId, q: seq<TaskId>, strict: bool)
    requires Good(s, None, strict) && ScanReady(s, host, q) && q != []
    requires q[0] in s.tasks && s.tasks[q[0]].status == Queued && !LockFree(s, s.tasks[q[0]].job)
    ensures var r := Requeued(s, q[0]);
            Good(r, None, strict) && Away(s, r, host) && ScanReady(r, host, q[1..]) && SameCompetitors(s, r)
  {
    assert q[0] in q;
    RequeueEffect(s, q[0]);
    RequeueKeeps(s, Requeued(s, q[0]), q[0], strict);
    RefusedIsReady(s, Requeued(s, q[0]), host, q);
  }

  lemma ScanStarted(s: State, id: TaskId, host: HostId, strict: bool)
    requires Good(s, None, strict) && id in s.tasks && s.tasks[id].job.host == host
    ensures var r := With(s, id, s.tasks[id].(queuePosition := None));
            Good(r, None, strict) && Away(s, r, host)
  {
    PositionsDoNotMatter(s, With(s, id, s.tasks[id].(queuePosition := None)), strict);
  }

  lemma TailIsReady(s: State, host: HostId, q: seq<TaskId>)
    requires ScanReady(s, host, q) && q != []
    requires q[0] in s.tasks && !Startable(s, s.tasks[q[0]].job)
    ensures ScanReady(s, host, q[1..])
  {
    assert forall id <- q :: id == q[0] || id in q[1..];
    assert forall id <- q[1..] :: id in q;
  }

  /** After the head of a snapshot was refused its lock, the rest is still a ready snapshot. */
  lemma RefusedIsReady(s: State, r: State, host: HostId, q: seq<TaskId>)
    requires ScanReady(s, host, q) && q != [] && Requeues(s, r, q[0])
    requires !LockFree(s, s.tasks[q[0]].job)
    requires Competing(r) == Competing(s)
    ensures ScanReady(r, host, q[1..])
  {
    var id := q[0];
    TailIsReady(s, host, q);
    forall u <- q[1..] ensures u in WaitingOn(r, host) && QueueKey(r.tasks, u) == QueueKey(s.tasks, u) {
      assert u in WaitingOn(s, host) && u != id;
      assert r.tasks[u].(queuePosition := s.tasks[u].queuePosition) == s.tasks[u];
    }
    WaitersStayBlocked(s, r, id, host, q[1..]);
  }

  lemma WaitersStayBlocked(s: State, r: State, id: TaskId, host: HostId, rest: seq<TaskId>)
    requires Requeues(s, r, id) && Competing(r) == Competing(s)
    requires forall u <- WaitingOn(s, host) :: u in rest || !Startable(s, s.tasks[u].job)
    ensures forall u <- WaitingOn(r, host) :: u in rest || !Startable(r, r.tasks[u].job)
  {
    forall u <- WaitingOn(r, host) | u !in rest ensures !Startable(r, r.tasks[u].job) {
      assert u in WaitingOn(s, host) && r.tasks[u].job == s.tasks[u].job;
      BlockersSame(s, r, s.tasks[u].job);
    }
  }

  lemma PumpKeeps(s: State, host: HostId, strict: bool)
    requires Good(s, None, strict)
    ensures Good(Pump(s, host), None, strict) && Away(s, Pump(s, host), host)
    ensures Conserving(Pump(s, host), host) && Numbered(Pump(s, host), host)
    decreases WaitingOn(s, host), 2, 0
  {
    SnapshotIsReady(s, host);
    ScanKeeps(s, host, QueuedHere(s, host), strict);
    var (s1, started) := Scan(s, host, QueuedHere(s, host));
    if started {
      PumpKeeps(s1, host, strict);
      AwayTrans(s, s1, Pump(s, host), host);
    } else {
      RenumberEffect(s1, host);
      PositionsDoNotMatter(s1, Renumbered(s1, host), strict);
      RenumberedIsNumbered(s1, host);
    }
  }
}
