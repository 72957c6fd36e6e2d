/**
 The coordinator's lease table (src/coordinator/store.ts): which leases are
 active, who is told about whom, and what can never come back.
 */
module Leases {
  import opened Base
  import opened Workspaces

  type LeaseToken = Name

  datatype Kind = Read | Other(kind: Name)
  datatype Outcome = Success | Failed | Cancelled | Expired

  datatype TaskIntent = TaskIntent(clientId: Name, workspace: string, kind: Kind, ttlMs: int)

  datatype Lease = Lease(
    clientId: Name, workspace: string, kind: Kind, ttlMs: int, token: LeaseToken,
    startedAt: Time, expiresAt: Time, outcome: Option<Outcome>)

  type LeaseTable = map<TaskId, Lease>

  datatype LeaseError = InvalidWorkspace(error: WorkspaceError) | LeaseExpired | LeaseTokenMismatch
  datatype Reply<+T> = Accepted(value: T) | Refused(reason: LeaseError)
  datatype BeginResult = BeginResult(
    taskId: TaskId, leaseToken: LeaseToken, conflicts: LeaseTable, observed: seq<Activity>, startedAt: Time, expiresAt: Time)

  /** A process that the observer has seen, and where it works, if that is known. */
  datatype Activity = Activity(pid: Name, cwd: Option<string>)

  predicate Active(lease: Lease, now: Time) {
    lease.outcome == None && now < lease.expiresAt
  }

  /** Both paths are good and one directory holds the other. */
  predicate Overlap(left: string, right: string) {
    && Normalized(left).Ok? && Normalized(right).Ok?
    && Nested(Components(left).value, Components(right).value)
  }

  /** Two leases that must know of each other when both are active. */
  predicate Clash(a: Kind, left: string, b: Kind, right: string) {
    a != Read && b != Read && Overlap(left, right)
  }

  lemma OverlapSymmetric(left: string, right: string)
    ensures Overlap(left, right) == Overlap(right, left)
  {
  }

  predicate Stored(leases: LeaseTable) {
    forall id <- leases :: Normalized(leases[id].workspace) == Ok(leases[id].workspace)
  }

  /** The row after the clean-up of expired leases. */
  function SweptRow(lease: Lease, now: Time): Lease {
    if lease.outcome == None && lease.expiresAt <= now
    then lease.(outcome := Some(Expired), expiresAt := now) else lease
  }

  function Swept(leases: LeaseTable, now: Time): LeaseTable {
    map id | id in leases :: SweptRow(leases[id], now)
  }

  /** Marking what has expired: afterwards a lease has no outcome exactly if it is active, and no other one changes. */
  lemma SweptTells(leases: LeaseTable, now: Time, id: TaskId)
    requires id in leases
    ensures id in Swept(leases, now)
    ensures Swept(leases, now)[id].outcome == None <==> Active(leases[id], now)
    ensures Active(leases[id], now) || leases[id].outcome != None ==> Swept(leases, now)[id] == leases[id]
    ensures Swept(leases, now)[id] != leases[id] ==>
              Swept(leases, now)[id] == leases[id].(outcome := Some(Expired), expiresAt := now)
  {
  }

  /** The active leases a new task clashes with. */
  function Conflicts(leases: LeaseTable, kind: Kind, workspace: string, now: Time): LeaseTable {
    map id | id in leases && Active(leases[id], now) && Clash(kind, workspace, leases[id].kind, leases[id].workspace)
      :: leases[id]
  }

  predicate IsNear(process: Activity, workspace: string) {
    process.cwd == None || Overlap(workspace, process.cwd.value)
  }

  predicate HasGoodPath(process: Activity) {
    process.cwd == None || Normalized(process.cwd.value).Ok?
  }

  function BadPath(process: Activity): LeaseError
    requires !HasGoodPath(process)
  {
    InvalidWorkspace(Normalized(process.cwd.value).error)
  }

  /** The processes that work in the way of a workspace, or nobody knows where. */
  function Nearby(processes: seq<Activity>, workspace: string): seq<Activity> {
    if processes == [] then []
    else
      var rest := Nearby(processes[1..], workspace);
      if IsNear(processes[0], workspace) then [processes[0]] + rest else rest
  }

  lemma {:induction false} NearbyTells(processes: seq<Activity>, workspace: string, a: Activity)
    ensures a in Nearby(processes, workspace) <==> a in processes && IsNear(a, workspace)
  {
    if processes != [] {
      NearbyTells(processes[1..], workspace, a);
      assert a in processes <==> a == processes[0] || a in processes[1..];
    }
  }

  /** The first process whose path cannot be compared. */
  function FirstBad(processes: seq<Activity>): (bad: Option<Activity>)
    ensures bad.Some? ==> !HasGoodPath(bad.value)
  {
    if processes == [] then None
    else if !HasGoodPath(processes[0]) then Some(processes[0])
    else FirstBad(processes[1..])
  }

  /** The active leases overlapping a workspace, or all active ones. */
  function Listed(leases: LeaseTable, workspace: Option<string>, now: Time): LeaseTable {
    map id | id in leases && Active(leases[id], now) && (workspace == None || Overlap(workspace.value, leases[id].workspace))
      :: leases[id]
  }

  lemma ListedIff(leases: LeaseTable, workspace: Option<string>, now: Time, id: TaskId)
    ensures id in Listed(leases, workspace, now) <==>
            && id in leases && leases[id].outcome == None && now < leases[id].expiresAt
            && (workspace == None ||
                (Normalized(workspace.value).Ok? && Normalized(leases[id].workspace).Ok?
                 && Nested(Components(workspace.value).value, Components(leases[id].workspace).value)))
    ensures id in Listed(leases, workspace, now) ==> Listed(leases, workspace, now)[id] == leases[id]
  {
  }

  /** Marking expired leases does not change which ones are listed. */
  lemma SweptLists(leases: LeaseTable, workspace: Option<string>, now: Time)
    ensures Listed(Swept(leases, now), workspace, now) == Listed(leases, workspace, now)
  {
    forall id | id in leases ensures Active(SweptRow(leases[id], now), now) == Active(leases[id], now) {
    }
  }

  /** The row a begin call writes. */
  function Opened(task: TaskIntent, workspace: string, token: LeaseToken, now: Time): Lease {
    Lease(task.clientId, workspace, task.kind, task.ttlMs, token, now, now + task.ttlMs, None)
  }

  function Began(leases: LeaseTable, task: TaskIntent, id: TaskId, token: LeaseToken, now: Time): LeaseTable {
    match Normalized(task.workspace)
    case Bad(_) => leases
    case Ok(workspace) => Swept(leases, now)[id := Opened(task, workspace, token, now)]
  }

  /** Why a heartbeat or a finish is refused, if it is. */
  function Refusal(leases: LeaseTable, id: TaskId, token: LeaseToken, now: Time): Option<LeaseError> {
    if id !in leases || !Active(leases[id], now) then Some(LeaseExpired)
    else if leases[id].token != token then Some(LeaseTokenMismatch)
    else None
  }

  /** A token is looked at only for a lease that is there, has no outcome, and has not run out. */
  lemma RefusalTells(leases: LeaseTable, id: TaskId, token: LeaseToken, now: Time)
    ensures
      var open := id in leases && leases[id].outcome == None && leases[id].expiresAt > now;
      && (Refusal(leases, id, token, now) == Some(LeaseExpired) <==> !open)
      && (Refusal(leases, id, token, now) == Some(LeaseTokenMismatch) <==> open && leases[id].token != token)
      && (Refusal(leases, id, token, now) == None <==> open && leases[id].token == token)
  {
  }

  function Beaten(leases: LeaseTable, id: TaskId, token: LeaseToken, now: Time): LeaseTable {
    if Refusal(leases, id, token, now) != None then leases
    else leases[id := leases[id].(expiresAt := now + leases[id].ttlMs)]
  }

  function Ended(leases: LeaseTable, id: TaskId, token: LeaseToken, outcome: Outcome, now: Time): LeaseTable {
    if Refusal(leases, id, token, now) != None then leases
    else leases[id := leases[id].(outcome := Some(outcome), expiresAt := now)]
  }

  // ---- Runs of the table

  datatype Call =
    | Begin(task: TaskIntent, id: TaskId, token: LeaseToken)
    | Heartbeat(id: TaskId, token: LeaseToken)
    | Finish(id: TaskId, token: LeaseToken, outcome: Outcome)
    | ListActive

  /** The table, the clock, the tasks in the order of their begin calls, and what each of these calls was told. */
  datatype Coordinator = Coordinator(leases: LeaseTable, now: Time, order: seq<TaskId>, told: map<TaskId, set<TaskId>>)

  /** Task ids are fresh, and the clock does not run backwards. */
  predicate Legal(c: Coordinator, call: Call, now: Time) {
    c.now <= now && (call.Begin? ==> call.id !in c.leases)
  }

  function Step(c: Coordinator, call: Call, now: Time): Coordinator {
    match call
    case Begin(task, id, token) =>
      if Normalized(task.workspace).Bad? then c.(now := now)
      else
        Coordinator(
          Began(c.leases, task, id, token, now), now, c.order + [id],
          c.told[id := Conflicts(Swept(c.leases, now), task.kind, Normalized(task.workspace).value, now).Keys])
    case Heartbeat(id, token) => c.(leases := Beaten(c.leases, id, token, now), now := now)
    case Finish(id, token, outcome) => c.(leases := Ended(c.leases, id, token, outcome, now), now := now)
    case ListActive => c.(leases := Swept(c.leases, now), now := now)
  }

  function Run(c: Coordinator, calls: seq<(Call, Time)>): Coordinator
    decreases |calls|
  {
    if calls == [] then c else Run(Step(c, calls[0].0, calls[0].1), calls[1..])
  }

  predicate LegalRun(c: Coordinator, calls: seq<(Call, Time)>)
    decreases |calls|
  {
    calls == [] || (Legal(c, calls[0].0, calls[0].1) && LegalRun(Step(c, calls[0].0, calls[0].1), calls[1..]))
  }

  const EMPTY: Coordinator := Coordinator(map[], 0, [], map[])

  /** What a call may do to a row that is there: its identity stays, and an outcome is for good. */
  predicate Follows(before: Lease, after: Lease) {
    && after.workspace == before.workspace && after.kind == before.kind && after.token == before.token
    && after.clientId == before.clientId && after.startedAt == before.startedAt && after.ttlMs == before.ttlMs
    && (before.outcome != None ==> after == before)
  }

  lemma StepFollows(c: Coordinator, call: Call, now: Time, id: TaskId)
    requires Legal(c, call, now) && id in c.leases
    ensures id in Step(c, call, now).leases && Follows(c.leases[id], Step(c, call, now).leases[id])
  {
  }

  /** Without a finish call that knows its token, an open row stays open or expires. */
  lemma OnlyFinishConcludes(c: Coordinator, call: Call, now: Time, id: TaskId)
    requires Legal(c, call, now) && id in c.leases && c.leases[id].outcome == None
    requires !(call.Finish? && call.token == c.leases[id].token)
    ensures id in Step(c, call, now).leases
    ensures var outcome := Step(c, call, now).leases[id].outcome; outcome == None || outcome == Some(Expired)
  {
  }

  /** A lease that is not active stays so, whatever is called. */
  lemma StepKeepsInactive(c: Coordinator, call: Call, now: Time, id: TaskId)
    requires Legal(c, call, now) && id in c.leases && !Active(c.leases[id], c.now)
    ensures id in Step(c, call, now).leases && !Active(Step(c, call, now).leases[id], now)
  {
  }

  /** A finished or expired lease never becomes active again. */
  lemma {:induction false} InactiveForGood(c: Coordinator, calls: seq<(Call, Time)>, id: TaskId)
    requires LegalRun(c, calls) && id in c.leases && !Active(c.leases[id], c.now)
    ensures id in Run(c, calls).leases && !Active(Run(c, calls).leases[id], Run(c, calls).now)
    decreases |calls|
  {
    if calls != [] {
      StepKeepsInactive(c, calls[0].0, calls[0].1, id);
      InactiveForGood(Step(c, calls[0].0, calls[0].1), calls[1..], id);
    }
  }

  // ---- Conflict visibility

  predicate Distinct(order: seq<TaskId>) {
    forall i, j :: 0 <= i < j < |order| ==> order[i] != order[j]
  }

  /** Begin calls and rows correspond, one to one. */
  predicate Recorded(c: Coordinator) {
    && Stored(c.leases)
    && Elements(c.order) == c.leases.Keys == c.told.Keys
    && Distinct(c.order)
  }

  predicate Told(c: Coordinator, earlier: TaskId, later: TaskId)
    requires earlier in c.leases && later in c.leases && later in c.told
  {
    var a, b := c.leases[earlier], c.leases[later];
    a.outcome == None && Clash(b.kind, b.workspace, a.kind, a.workspace) ==> earlier in c.told[later]
  }

  predicate Visible(c: Coordinator) {
    && Recorded(c)
    && forall i: nat, j: nat :: i < j < |c.order| ==>
         c.order[i] in Elements(c.order) && c.order[j] in Elements(c.order) && Told(c, c.order[i], c.order[j])
  }

  lemma StepKeepsStored(c: Coordinator, call: Call, now: Time)
    requires Stored(c.leases)
    ensures Stored(Step(c, call, now).leases)
  {
    if call.Begin? && Normalized(call.task.workspace).Ok? {
      NormalizeIdempotent(call.task.workspace);
    }
  }

  lemma StepKeepsRecorded(c: Coordinator, call: Call, now: Time)
    requires Recorded(c) && Legal(c, call, now)
    ensures Recorded(Step(c, call, now))
  {
    StepKeepsStored(c, call, now);
    StepKeys(c, call, now);
    if call.Begin? && Normalized(call.task.workspace).Ok? {
      OrderGrows(c.order, call.id);
    }
  }

  lemma StepKeys(c: Coordinator, call: Call, now: Time)
    requires Legal(c, call, now)
    ensures var added := if call.Begin? && Normalized(call.task.workspace).Ok? then {call.id} else {};
            var next := Step(c, call, now);
            && next.leases.Keys == c.leases.Keys + added
            && next.told.Keys == c.told.Keys + added
  {
  }

  lemma OrderGrows(order: seq<TaskId>, id: TaskId)
    requires Distinct(order) && id !in Elements(order)
    ensures Distinct(order + [id]) && Elements(order + [id]) == Elements(order) + {id}
  {
    assert forall x <- order :: x in Elements(order);
  }

  /** What was told of an earlier task stays told, whatever is called. */
  lemma ToldStays(c: Coordinator, call: Call, now: Time, earlier: TaskId, later: TaskId)
    requires Legal(c, call, now) && earlier in c.leases && later in c.leases && later in c.told && Told(c, earlier, later)
    ensures var next := Step(c, call, now);
            earlier in next.leases && later in next.leases && later in next.told && Told(next, earlier, later)
  {
    StepFollows(c, call, now, earlier);
    StepFollows(c, call, now, later);
  }

  /** A begin call is told of every earlier task that clashes with it and has no outcome yet. */
  lemma NewlyTold(c: Coordinator, call: Call, now: Time, earlier: TaskId)
    requires Legal(c, call, now) && Stored(c.leases) && earlier in c.leases
    requires call.Begin? && Normalized(call.task.workspace).Ok?
    ensures var next := Step(c, call, now);
            earlier in next.leases && call.id in next.leases && call.id in next.told && Told(next, earlier, call.id)
  {
    StepFollows(c, call, now, earlier);
  }

  lemma StepOrder(c: Coordinator, call: Call, now: Time)
    ensures Step(c, call, now).order ==
            if call.Begin? && Normalized(call.task.workspace).Ok? then c.order + [call.id] else c.order
  {
  }

  lemma PairStaysTold(c: Coordinator, call: Call, now: Time, i: nat, j: nat)
    requires Visible(c) && Legal(c, call, now) && i < j < |Step(c, call, now).order|
    ensures var next := Step(c, call, now);
            && next.order[i] in next.leases && next.order[j] in next.leases && next.order[j] in next.told
            && Told(next, next.order[i], next.order[j])
  {
    StepOrder(c, call, now);
    assert c.order[i] in Elements(c.order);
    if j < |c.order| {
      assert c.order[j] in Elements(c.order) && Told(c, c.order[i], c.order[j]);
      ToldStays(c, call, now, c.order[i], c.order[j]);
    } else {
      NewlyTold(c, call, now, c.order[i]);
    }
  }

  lemma StepKeepsVisible(c: Coordinator, call: Call, now: Time)
    requires Visible(c) && Legal(c, call, now)
    ensures Visible(Step(c, call, now))
  {
    var next := Step(c, call, now);
    StepKeepsRecorded(c, call, now);
    forall i: nat, j: nat | i < j < |next.order|
      ensures next.order[i] in Elements(next.order) && next.order[j] in Elements(next.order)
      ensures Told(next, next.order[i], next.order[j])
    {
      PairStaysTold(c, call, now, i, j);
    }
  }

  lemma {:induction false} RunKeepsVisible(c: Coordinator, calls: seq<(Call, Time)>)
    requires Visible(c) && LegalRun(c, calls)
    ensures Visible(Run(c, calls))
    decreases |calls|
  {
    if calls != [] {
      StepKeepsVisible(c, calls[0].0, calls[0].1);
      RunKeepsVisible(Step(c, calls[0].0, calls[0].1), calls[1..]);
    }
  }

  /**
   In every run: of two leases active at once that are not reads and whose workspaces overlap,
   the begin call of the later one listed the earlier.
   */
  lemma ConflictVisibility(calls: seq<(Call, Time)>, i: nat, j: nat)
    requires LegalRun(EMPTY, calls)
    requires i < j < |Run(EMPTY, calls).order|
    ensures
      var c := Run(EMPTY, calls);
      var earlier, later := c.order[i], c.order[j];
      && Elements(c.order) == c.leases.Keys == c.told.Keys
      && earlier in Elements(c.order) && later in Elements(c.order) && earlier != later
      && (Active(c.leases[earlier], c.now) && Active(c.leases[later], c.now)
          && Clash(c.leases[earlier].kind, c.leases[earlier].workspace, c.leases[later].kind, c.leases[later].workspace)
          ==> earlier in c.told[later])
  {
    RunKeepsVisible(EMPTY, calls);
    var c := Run(EMPTY, calls);
    assert Told(c, c.order[i], c.order[j]);
    OverlapSymmetric(c.leases[c.order[i]].workspace, c.leases[c.order[j]].workspace);
  }

  /** What a call reports is what clashes and is active right then, no more and no less. */
  lemma ToldExactly(c: Coordinator, task: TaskIntent, id: TaskId, token: LeaseToken, now: Time, other: TaskId)
    requires Legal(c, Begin(task, id, token), now) && Normalized(task.workspace).Ok?
    ensures
      var next := Step(c, Begin(task, id, token), now);
      other in next.told[id] <==>
      && other in c.leases && Active(c.leases[other], now)
      && Clash(task.kind, task.workspace, c.leases[other].kind, c.leases[other].workspace)
  {
    NormalizeIdempotent(task.workspace);
  }
}

module CoordinatorStores {
  import opened Base
  import opened Workspaces
  import opened Leases

  class CoordinatorStore {
    var leases: LeaseTable

    predicate Valid()
      reads this
    {
      Stored(leases)
    }

    constructor ()
      ensures Valid() && leases == map[]
    {
      leases := map[];
    }

    method CleanupExpired(now: Time)
      requires Valid()
      modifies this
      ensures Valid() && leases == Swept(old(leases), now)
    {
      leases := map id | id in leases :: SweptRow(leases[id], now);
    }

    /** The active rows that a workspace overlaps and, for a begin call, whose kind matters. */
    method OverlappingRows(workspace: string, now: Time) returns (rows: LeaseTable)
      requires Valid() && Normalized(workspace).Ok?
      ensures rows == map id | id in leases && Active(leases[id], now) && Overlap(workspace, leases[id].workspace) :: leases[id]
    {
      rows := map[];
      var todo := leases.Keys;
      while todo != {}
        invariant todo <= leases.Keys
        invariant forall id <- rows :: id in leases && id !in todo && rows[id] == leases[id]
        invariant forall id <- leases :: id !in todo ==>
                    (id in rows <==> Active(leases[id], now) && Overlap(workspace, leases[id].workspace))
        decreases |todo|
      {
        var id :| id in todo;
        todo := todo - {id};
        var row := leases[id];
        if Active(row, now) {
          var overlap := WorkspacesOverlap(workspace, row.workspace);
          if overlap.Ok? && overlap.value {
            rows := rows[id := row];
          }
        }
      }
    }

    method Compare(workspace: string, process: Activity) returns (r: Reply<bool>)
      requires Normalized(workspace).Ok?
      ensures r.Accepted? <==> HasGoodPath(process)
      ensures r == if HasGoodPath(process) then Accepted(IsNear(process, workspace)) else Refused(BadPath(process))
    {
      if process.cwd == None {
        return Accepted(true);
      }
      var overlap := WorkspacesOverlap(workspace, process.cwd.value);
      if overlap.Bad? {
        return Refused(InvalidWorkspace(overlap.error));
      }
      return Accepted(overlap.value);
    }

    /** The processes near a workspace; the first one whose path cannot be compared spoils the whole list. */
    method ListObserved(workspace: string, processes: seq<Activity>) returns (r: Reply<seq<Activity>>)
      requires Normalized(workspace).Ok?
      ensures r == match FirstBad(processes)
                   case None => Accepted(Nearby(processes, workspace))
                   case Some(a) => Refused(BadPath(a))
      decreases |processes|
    {
      if processes == [] {
        return Accepted([]);
      }
      var compared := Compare(workspace, processes[0]);
      if compared.Refused? {
        return Refused(compared.reason);
      }
      r := ListObserved(workspace, processes[1..]);
      if r.Accepted? && compared.value {
        r := Accepted([processes[0]] + r.value);
      }
    }

    /** The active rows that clash with a new task. */
    method ConflictingRows(workspace: string, kind: Kind, now: Time) returns (conflicts: LeaseTable)
      requires Valid() && Normalized(workspace).Ok?
      ensures conflicts == Conflicts(leases, kind, workspace, now)
    {
      conflicts := map[];
      if kind != Read {
        var rows := OverlappingRows(workspace, now);
        conflicts := map id | id in rows && rows[id].kind != Read :: rows[id];
      }
    }

    /**
     Marks expired rows, writes the new row, and reports the rows and the processes in its way. The row is
     written before the processes are looked at, and stays when that fails.
     */
    method BeginTask(task: TaskIntent, taskId: TaskId, leaseToken: LeaseToken, processes: seq<Activity>, now: Time)
      returns (r: Reply<BeginResult>)
      requires Valid() && taskId !in leases
      modifies this
      ensures Valid() && leases == Began(old(leases), task, taskId, leaseToken, now)
      ensures r.Accepted? <==>
              Normalized(task.workspace).Ok? && (task.kind == Read || FirstBad(processes) == None)
      ensures Normalized(task.workspace).Bad? ==> r == Refused(InvalidWorkspace(Normalized(task.workspace).error))
      ensures Normalized(task.workspace).Ok? && task.kind != Read && FirstBad(processes).Some? ==>
                r == Refused(BadPath(FirstBad(processes).value))
      ensures r.Accepted? ==>
                var workspace := Normalized(task.workspace).value;
                r.value == BeginResult(
                  taskId, leaseToken, Conflicts(Swept(old(leases), now), task.kind, workspace, now),
                  if task.kind == Read then [] else Nearby(processes, workspace), now, now + task.ttlMs)
    {
      var workspace := NormalizeWorkspace(task.workspace);
      if workspace.Bad? {
        return Refused(InvalidWorkspace(workspace.error));
      }
      NormalizeIdempotent(task.workspace);
      CleanupExpired(now);
      var conflicts := ConflictingRows(workspace.value, task.kind, now);
      var expiresAt := now + task.ttlMs;
      leases := leases[taskId :=
        Lease(task.clientId, workspace.value, task.kind, task.ttlMs, leaseToken, now, expiresAt, None)];
      var observed: seq<Activity> := [];
      if task.kind != Read {
        var listed := ListObserved(workspace.value, processes);
        if listed.Refused? {
          return Refused(listed.reason);
        }
        observed := listed.value;
      }
      return Accepted(BeginResult(taskId, leaseToken, conflicts, observed, now, expiresAt));
    }

    method Heartbeat(taskId: TaskId, leaseToken: LeaseToken, now: Time) returns (r: Reply<()>)
      requires Valid()
      modifies this
      ensures Valid() && leases == Beaten(old(leases), taskId, leaseToken, now)
      ensures r == match Refusal(old(leases), taskId, leaseToken, now) case None => Accepted(()) case Some(e) => Refused(e)
    {
      if taskId !in leases || leases[taskId].outcome != None || leases[taskId].expiresAt <= now {
        return Refused(LeaseExpired);
      }
      if leases[taskId].token != leaseToken {
        return Refused(LeaseTokenMismatch);
      }
      var ttl := leases[taskId].ttlMs;
      leases := leases[taskId := leases[taskId].(expiresAt := now + ttl)];
      return Accepted(());
    }

    method FinishTask(taskId: TaskId, leaseToken: LeaseToken, outcome: Outcome, now: Time) returns (r: Reply<()>)
      requires Valid()
      modifies this
      ensures Valid() && leases == Ended(old(leases), taskId, leaseToken, outcome, now)
      ensures r == match Refusal(old(leases), taskId, leaseToken, now) case None => Accepted(()) case Some(e) => Refused(e)
    {
      if taskId !in leases || leases[taskId].outcome != None || leases[taskId].expiresAt <= now {
        return Refused(LeaseExpired);
      }
      if leases[taskId].token != leaseToken {
        return Refused(LeaseTokenMismatch);
      }
      leases := leases[taskId := leases[taskId].(outcome := Some(outcome), expiresAt := now)];
      return Accepted(());
    }

    /** Lists the active leases; expired ones are marked even when the workspace is refused afterwards. */
    method ListActive(workspace: Option<string>, now: Time) returns (r: Reply<LeaseTable>)
      requires Valid()
      modifies this
      ensures Valid() && leases == Swept(old(leases), now)
      ensures r.Accepted? <==> workspace == None || Normalized(workspace.value).Ok?
      ensures r.Accepted? ==> r.value == Listed(old(leases), workspace, now)
      ensures r.Refused? ==> r.reason == InvalidWorkspace(Normalized(workspace.value).error)
    {
      CleanupExpired(now);
      SweptLists(old(leases), workspace, now);
      if workspace == None {
        var rows := map id | id in leases && Active(leases[id], now) :: leases[id];
        assert rows == Listed(leases, workspace, now);
        return Accepted(rows);
      }
      var normalized := NormalizeWorkspace(workspace.value);
      if normalized.Bad? {
        return Refused(InvalidWorkspace(normalized.error));
      }
      NormalizeIdempotent(workspace.value);
      var rows := OverlappingRows(normalized.value, now);
      assert rows == Listed(leases, workspace, now);
      return Accepted(rows);
    }
  }
}
