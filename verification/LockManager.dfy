/**
 The scheduler's lock table (src/scheduler/lock-manager.ts): a functional
 specification of every operation on the table's value, and the class that
 updates the two maps in place.
 */
module LockTables {
  import opened Base

  // Lock ids are drawn from a counter: the source's random ids, taken to be fresh.
  type LockId = nat

  datatype LockScope = HostScope | WorkdirScope | CustomScope

  /** What a lock protects; the source joins the three parts into one string. */
  datatype LockKey = LockKey(scope: LockScope, host: HostId, key: Name)

  datatype Lock = Lock(id: LockId, at: LockKey, ownerAgent: AgentId, ownerTask: Option<TaskId>, expiresAt: Time)

  datatype LockTable = LockTable(locks: map<LockKey, Lock>, keyOf: map<LockId, LockKey>, nextId: LockId)

  const DEFAULT_TTL: Time := 30 * 60 * 1000

  const EMPTY_TABLE := LockTable(map[], map[], 0)

  /** The id map is the inverse of the lock map, and every lock sits at its own key. */
  ghost predicate Consistent(lt: LockTable) {
    && (forall k <- lt.locks :: lt.locks[k].at == k && lt.locks[k].id in lt.keyOf && lt.keyOf[lt.locks[k].id] == k)
    && (forall i <- lt.keyOf :: i < lt.nextId && lt.keyOf[i] in lt.locks && lt.locks[lt.keyOf[i]].id == i)
  }

  /** No lock has expired at time `now`. */
  ghost predicate AllFresh(lt: LockTable, now: Time) {
    forall k <- lt.locks :: lt.locks[k].expiresAt >= now
  }

  function Without(lt: LockTable, gone: set<LockKey>): LockTable
    requires gone <= lt.locks.Keys
  {
    lt.(locks := lt.locks - gone, keyOf := lt.keyOf - set k | k in gone :: lt.locks[k].id)
  }

  function WithoutExpired(lt: LockTable, now: Time): LockTable {
    Without(lt, set k | k in lt.locks && lt.locks[k].expiresAt < now)
  }

  function LocksOfTask(lt: LockTable, task: TaskId): set<LockKey> {
    set k | k in lt.locks && lt.locks[k].ownerTask == Some(task)
  }

  function ReleasedForTask(lt: LockTable, task: TaskId): LockTable {
    Without(lt, LocksOfTask(lt, task))
  }

  /** A claim by `task` of `agent` on a lock that is already there. */
  predicate MayRetake(held: Lock, agent: AgentId, task: Option<TaskId>) {
    && (held.ownerTask.None? || task.None? || held.ownerTask == task)
    && held.ownerAgent == agent
  }

  function Acquire(lt: LockTable, at: LockKey, agent: AgentId, task: Option<TaskId>, now: Time, ttl: Time)
    : (LockTable, Option<Lock>)
  {
    var live := WithoutExpired(lt, now);
    if at in live.locks then
      if MayRetake(live.locks[at], agent, task) then
        var renewed := live.locks[at].(expiresAt := now + ttl);
        (live.(locks := live.locks[at := renewed]), Some(renewed))
      else
        (live, None)
    else
      var lock := Lock(live.nextId, at, agent, task, now + ttl);
      (LockTable(live.locks[at := lock], live.keyOf[lock.id := at], live.nextId + 1), Some(lock))
  }

  function Renewed(lt: LockTable, id: LockId, now: Time, ttl: Time): LockTable {
    if id in lt.keyOf && lt.keyOf[id] in lt.locks then
      var k := lt.keyOf[id];
      lt.(locks := lt.locks[k := lt.locks[k].(expiresAt := now + ttl)])
    else lt
  }

  function AtKey(lt: LockTable, k: LockKey): seq<Lock> {
    if k in lt.locks then [lt.locks[k]] else []
  }

  /** The locks in the way of a working-directory or custom claim: the host lock, then the claim's own key. */
  function ConflictsBelowHost(lt: LockTable, scope: LockScope, key: Name, host: HostId): seq<Lock> {
    AtKey(lt, LockKey(HostScope, host, host)) + AtKey(lt, LockKey(scope, host, key))
  }

  /** `found` lists every lock of `host` exactly once. */
  ghost predicate ListsHost(found: seq<Lock>, lt: LockTable, host: HostId) {
    && (forall l <- found :: l.at in lt.locks && l.at.host == host && lt.locks[l.at] == l)
    && (forall k <- lt.locks :: k.host == host ==> lt.locks[k] in found)
    && (forall i, j :: 0 <= i < j < |found| ==> found[i] != found[j])
  }

  lemma WithoutKeepsConsistent(lt: LockTable, gone: set<LockKey>)
    requires Consistent(lt) && gone <= lt.locks.Keys
    ensures Consistent(Without(lt, gone))
    ensures forall i :: i in Without(lt, gone).keyOf <==> i in lt.keyOf && lt.keyOf[i] !in gone
  {
  }

  /** Whatever is acquired, the id map stays the inverse of the lock map. */
  lemma AcquireKeepsConsistent(lt: LockTable, at: LockKey, agent: AgentId, task: Option<TaskId>, now: Time, ttl: Time)
    requires Consistent(lt)
    ensures Consistent(Acquire(lt, at, agent, task, now, ttl).0)
  {
    WithoutKeepsConsistent(lt, set k | k in lt.locks && lt.locks[k].expiresAt < now);
  }

  lemma NothingExpired(lt: LockTable, now: Time)
    requires AllFresh(lt, now)
    ensures WithoutExpired(lt, now) == lt
  {
    var gone := set k | k in lt.locks && lt.locks[k].expiresAt < now;
    assert gone == {};
    assert lt.locks - gone == lt.locks;
  }

  /** A second task gets a held lock exactly when the holder's claim has run out. */
  lemma OtherTaskAcquires(lt: LockTable, at: LockKey, agent: AgentId, other: TaskId, now: Time, ttl: Time)
    requires Consistent(lt) && at in lt.locks
    requires lt.locks[at].ownerTask.Some? && lt.locks[at].ownerTask.value != other
    ensures Acquire(lt, at, agent, Some(other), now, ttl).1.Some? <==> lt.locks[at].expiresAt < now
  {
  }

  /** A renewal gives the lock with the id a full time to live, and changes nothing else. */
  lemma RenewTells(lt: LockTable, id: LockId, now: Time, ttl: Time, k: LockKey)
    requires Consistent(lt) && k in lt.locks
    ensures
      var next, held := Renewed(lt, id, now, ttl), lt.locks[k];
      && next == lt.(locks := next.locks) && next.locks.Keys == lt.locks.Keys
      && next.locks[k] == if held.id == id then held.(expiresAt := now + ttl) else held
  {
  }

  /**
   Who gets a lock, and which: a live one is refused exactly to another task or another agent, and is the same lock
   with a new time to live otherwise; a free or expired one is given under a fresh id. The other live locks stay.
   */
  lemma AcquireTells(lt: LockTable, at: LockKey, agent: AgentId, task: Option<TaskId>, now: Time, ttl: Time)
    requires Consistent(lt)
    ensures
      var (next, got) := Acquire(lt, at, agent, task, now, ttl);
      var live := at in lt.locks && lt.locks[at].expiresAt >= now;
      var others := live && task.Some? && lt.locks[at].ownerTask.Some? && task != lt.locks[at].ownerTask;
      && (got == None <==> others || (live && agent != lt.locks[at].ownerAgent))
      && (got.Some? && live ==> got.value == lt.locks[at].(expiresAt := now + ttl))
      && (got.Some? && !live ==>
            got.value == Lock(got.value.id, at, agent, task, now + ttl) && got.value.id !in lt.keyOf)
      && (got.Some? ==> at in next.locks && next.locks[at] == got.value)
      && (forall k: LockKey :: k != at || got == None ==>
            (k in next.locks <==> k in lt.locks && lt.locks[k].expiresAt >= now)
            && (k in next.locks ==> next.locks[k] == lt.locks[k]))
  {
  }
}

module LockManagers {
  import opened Base
  import opened LockTables

  class LockManager {
    var locks: map<LockKey, Lock>
    var lockIdToKey: map<LockId, LockKey>
    var nextId: LockId
    const ttl: Time

    ghost function Table(): LockTable
      reads this
    {
      LockTable(locks, lockIdToKey, nextId)
    }

    constructor (ttl: Time := DEFAULT_TTL)
      ensures Table() == EMPTY_TABLE && this.ttl == ttl
    {
      this.ttl := ttl;
      locks, lockIdToKey, nextId := map[], map[], 0;
    }

    /** Drops the entries at `gone` from both maps, one at a time. */
    method DeleteAll(gone: set<LockKey>)
      requires gone <= locks.Keys && Consistent(Table())
      modifies this
      ensures Table() == Without(old(Table()), gone)
      ensures Consistent(Table())
    {
      ghost var was := Table();
      var todo := gone;
      while todo != {}
        invariant todo <= gone
        invariant Table() == Without(was, gone - todo)
        decreases todo
      {
        var k :| k in todo;
        WithoutKeepsConsistent(was, gone - todo);
        assert locks[k] == was.locks[k];
        lockIdToKey := lockIdToKey - {locks[k].id};
        locks := locks - {k};
        assert gone - (todo - {k}) == (gone - todo) + {k};
        todo := todo - {k};
      }
      assert gone - todo == gone;
      WithoutKeepsConsistent(was, gone);
    }

    method CleanExpired(now: Time)
      requires Consistent(Table())
      modifies this
      ensures Table() == WithoutExpired(old(Table()), now) && Consistent(Table())
    {
      DeleteAll(set k | k in locks && locks[k].expiresAt < now);
    }

    method Acquire(at: LockKey, agent: AgentId, task: Option<TaskId>, now: Time) returns (lock: Option<Lock>)
      requires Consistent(Table())
      modifies this
      ensures (Table(), lock) == LockTables.Acquire(old(Table()), at, agent, task, now, ttl)
      ensures Consistent(Table())
    {
      AcquireKeepsConsistent(Table(), at, agent, task, now, ttl);
      CleanExpired(now);
      if at in locks {
        var existing := locks[at];
        if existing.ownerTask.Some? && task.Some? && existing.ownerTask != task {
          return None;
        }
        if existing.ownerAgent == agent {
          existing := existing.(expiresAt := now + ttl);
          locks := locks[at := existing];
          return Some(existing);
        }
        return None;
      }
      var fresh' := Lock(nextId, at, agent, task, now + ttl);
      nextId := nextId + 1;
      locks := locks[at := fresh'];
      lockIdToKey := lockIdToKey[fresh'.id := at];
      return Some(fresh');
    }

    /** The key under which a lock id is found: through the id map, else by scanning the locks. */
    method FindById(id: LockId) returns (at: Option<LockKey>)
      requires Consistent(Table())
      ensures at.Some? <==> id in lockIdToKey
      ensures at.Some? ==> at.value in locks && locks[at.value].id == id && at.value == lockIdToKey[id]
    {
      if id in lockIdToKey {
        return Some(lockIdToKey[id]);
      }
      var todo := locks.Keys;
      while todo != {}
        invariant todo <= locks.Keys
        decreases todo
      {
        var k :| k in todo;
        if locks[k].id == id {
          return Some(k);
        }
        todo := todo - {k};
      }
      return None;
    }

    method Release(id: LockId) returns (released: bool)
      requires Consistent(Table())
      modifies this
      ensures released <==> id in old(lockIdToKey)
      ensures released ==> Table() == Without(old(Table()), {old(lockIdToKey)[id]})
      ensures !released ==> Table() == old(Table())
      ensures Consistent(Table())
    {
      var at := FindById(id);
      if at.None? {
        return false;
      }
      DeleteAll({at.value});
      return true;
    }

    method ReleaseForTask(task: TaskId)
      requires Consistent(Table())
      modifies this
      ensures Table() == ReleasedForTask(old(Table()), task) && Consistent(Table())
    {
      DeleteAll(set k | k in locks && locks[k].ownerTask == Some(task));
    }

    /** The locks of one host, each once, in no particular order. */
    method GetLocksForHost(host: HostId, now: Time) returns (found: seq<Lock>)
      requires Consistent(Table())
      modifies this
      ensures Table() == WithoutExpired(old(Table()), now) && Consistent(Table())
      ensures ListsHost(found, Table(), host)
    {
      CleanExpired(now);
      found := [];
      var todo := set k | k in locks && k.host == host;
      while todo != {}
        invariant todo <= locks.Keys
        invariant forall k <- locks :: k.host == host ==> k in todo || locks[k] in found
        invariant forall l <- found :: l.at in locks && l.at !in todo && l.at.host == host && locks[l.at] == l
        invariant forall i, j :: 0 <= i < j < |found| ==> found[i] != found[j]
        decreases todo
      {
        var k :| k in todo;
        found := found + [locks[k]];
        todo := todo - {k};
      }
    }

    method GetConflictingLocks(scope: LockScope, key: Name, host: HostId, now: Time) returns (conflicts: seq<Lock>)
      requires Consistent(Table())
      modifies this
      ensures Table() == WithoutExpired(old(Table()), now) && Consistent(Table())
      ensures scope != HostScope ==> conflicts == ConflictsBelowHost(Table(), scope, key, host)
      ensures scope == HostScope ==>
                var own := AtKey(Table(), LockKey(HostScope, host, key));
                own <= conflicts && ListsHost(conflicts[|own|..], Table(), host)
    {
      CleanExpired(now);
      NothingExpired(Table(), now);
      conflicts := [];
      if scope == HostScope {
        var own := LockKey(HostScope, host, key);
        if own in locks {
          conflicts := conflicts + [locks[own]];
        }
        var others := GetLocksForHost(host, now);
        conflicts := conflicts + others;
      } else {
        var hostKey := LockKey(HostScope, host, host);
        if hostKey in locks {
          conflicts := conflicts + [locks[hostKey]];
        }
        var own := LockKey(scope, host, key);
        if own in locks {
          conflicts := conflicts + [locks[own]];
        }
      }
    }

    method Renew(id: LockId, now: Time) returns (renewed: bool)
      requires Consistent(Table())
      modifies this
      ensures Table() == Renewed(old(Table()), id, now, ttl) && Consistent(Table())
      ensures renewed <==> id in old(lockIdToKey)
    {
      var at := FindById(id);
      if at.None? {
        return false;
      }
      var k := at.value;
      locks := locks[k := locks[k].(expiresAt := now + ttl)];
      return true;
    }
  }
}
