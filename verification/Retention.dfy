/** What the retention collector looks at, and the tasks it spares. */
module Retention {
  import opened Base
  import opened TimeOrder

  datatype Stream = Stdout | Stderr
  datatype FileKey = FileKey(taskId: TaskId, stream: Stream)
  datatype OutputFile = OutputFile(content: Bytes, mtimeMs: Time)
  type Files = map<FileKey, OutputFile>

  datatype Record = Record(key: FileKey, size: nat, mtimeMs: Time)

  function RecordKeys(records: seq<Record>): set<FileKey> {
    set r | r in records :: r.key
  }

  predicate DistinctKeys(records: seq<Record>) {
    forall i, j :: 0 <= i < j < |records| ==> records[i].key != records[j].key
  }

  /** The records are a listing of the directory, in some order. */
  predicate Lists(records: seq<Record>, files: Files) {
    && DistinctKeys(records) && RecordKeys(records) == files.Keys
    && forall r <- records :: r.key in files && r.size == |files[r.key].content| && r.mtimeMs == files[r.key].mtimeMs
  }

  /** The size of the listed files that are left. */
  function Total(records: seq<Record>, left: set<FileKey>): nat {
    if records == [] then 0
    else (if records[0].key in left then records[0].size else 0) + Total(records[1..], left)
  }

  lemma TotalSame(records: seq<Record>, a: set<FileKey>, b: set<FileKey>)
    requires forall r <- records :: r.key in a <==> r.key in b
    ensures Total(records, a) == Total(records, b)
  {
  }

  /** Deleting one file lowers the total by its size. */
  lemma {:induction false} TotalDrops(records: seq<Record>, left: set<FileKey>, r: Record)
    requires DistinctKeys(records) && r in records && r.key in left
    ensures Total(records, left) == Total(records, left - {r.key}) + r.size
  {
    if records[0] == r {
      TotalSame(records[1..], left, left - {r.key});
    } else {
      assert r in records[1..];
      TotalDrops(records[1..], left, r);
      var i :| 0 < i < |records| && records[i] == r;
    }
  }

  /** The newest time among a task's files. */
  function Newest(records: seq<Record>, task: TaskId): Time {
    if records == [] then 0
    else
      var r := records[|records| - 1];
      var before := Newest(records[..|records| - 1], task);
      if r.key.taskId == task && r.mtimeMs > before then r.mtimeMs else before
  }

  /** No file of the task is newer, and one is as new, unless there is none from after the epoch. */
  lemma {:induction false} NewestIsNewest(records: seq<Record>, task: TaskId)
    ensures forall r <- records :: r.key.taskId == task ==> r.mtimeMs <= Newest(records, task)
    ensures Newest(records, task) != 0 ==>
              exists r <- records :: r.key.taskId == task && r.mtimeMs == Newest(records, task)
    ensures Newest(records, task) >= 0
  {
    if records != [] {
      var before, last := records[..|records| - 1], records[|records| - 1];
      NewestIsNewest(before, task);
      assert records == before + [last];
      assert forall r :: r in records <==> r in before || r == last;
    }
  }

  function Tasks(records: seq<Record>): set<TaskId> {
    set r | r in records :: r.key.taskId
  }

  /** The `keep` tasks with the newest output, as many as there are. */
  predicate AreRecent(recent: set<TaskId>, records: seq<Record>, keep: nat) {
    && recent <= Tasks(records)
    && |recent| == (if keep < |Tasks(records)| then keep else |Tasks(records)|)
    && forall r <- recent, t <- Tasks(records) - recent :: Newest(records, t) <= Newest(records, r)
  }

  /** One more record matters to its own task only. */
  lemma NewestStep(records: seq<Record>, i: nat)
    requires i < |records|
    ensures Tasks(records[..i + 1]) == Tasks(records[..i]) + {records[i].key.taskId}
    ensures forall t ::
              Newest(records[..i + 1], t) ==
              var before := Newest(records[..i], t);
              if records[i].key.taskId == t && records[i].mtimeMs > before then records[i].mtimeMs else before
  {
    assert records[..i + 1] == records[..i] + [records[i]];
    assert records[..i + 1][..i] == records[..i];
  }

  method NewestByTask(records: seq<Record>) returns (taskNewest: map<TaskId, Time>)
    ensures taskNewest.Keys == Tasks(records)
    ensures forall t <- taskNewest :: taskNewest[t] == Newest(records, t)
  {
    taskNewest := map[];
    for i := 0 to |records|
      invariant taskNewest.Keys == Tasks(records[..i])
      invariant forall t <- taskNewest :: taskNewest[t] == Newest(records[..i], t)
      invariant forall t :: t !in taskNewest ==> Newest(records[..i], t) == 0
    {
      var r := records[i];
      NewestStep(records, i);
      var before := if r.key.taskId in taskNewest then taskNewest[r.key.taskId] else 0;
      taskNewest := taskNewest[r.key.taskId := if r.mtimeMs > before then r.mtimeMs else before];
    }
    assert records[..|records|] == records;
  }

  /** The entries of a map, each once, in some order. */
  method Entries(taskNewest: map<TaskId, Time>) returns (entries: seq<Timed<TaskId>>)
    ensures NoRepeat(entries) && |entries| == |taskNewest|
    ensures forall x :: x in entries <==> x.key in taskNewest && x.time == -taskNewest[x.key]
  {
    entries := [];
    var todo := taskNewest.Keys;
    while todo != {}
      invariant todo <= taskNewest.Keys && NoRepeat(entries) && |entries| + |todo| == |taskNewest|
      invariant forall x :: x in entries <==> x.key in taskNewest && x.key !in todo && x.time == -taskNewest[x.key]
      decreases |todo|
    {
      var t :| t in todo;
      todo := todo - {t};
      var entry := Timed(t, -taskNewest[t]);
      assert ([entry] + entries)[1..] == entries;
      entries := [entry] + entries;
    }
  }

  /** The newest `keep` tasks: the entries sorted newest first, cut off. */
  method RecentTasks(records: seq<Record>, keep: nat) returns (recent: set<TaskId>)
    ensures AreRecent(recent, records, keep)
  {
    var taskNewest := NewestByTask(records);
    var entries := Entries(taskNewest);
    var sorted := SortByTime(entries);
    SortSorts(entries);
    SortNoRepeat(entries);
    var n := if keep < |sorted| then keep else |sorted|;
    recent := set x | x in sorted[..n] :: x.key;
    NoRepeatPrefix(sorted, n);
    KeysOfDistinct(sorted[..n], recent);
    forall r, t | r in recent && t in Tasks(records) - recent ensures Newest(records, t) <= Newest(records, r) {
      var x := Timed(t, -taskNewest[t]);
      assert x in sorted;
      var y :| y in sorted[..n] && y.key == r;
      assert y in sorted;
      FirstAreNewest(sorted, n, y, x);
    }
  }
}
