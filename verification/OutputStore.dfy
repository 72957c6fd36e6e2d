/**
 The output store itself (src/scheduler/output-store.ts): entries, queues and files
 of all tasks, changed in place, and the clean-up that keeps the directory small.
 */
module OutputStores {
  import opened Base
  import opened Framing
  import opened OutputStreams
  import opened TimeOrder
  import opened Retention
  import opened OutputCleanup

  const DEFAULT_MAX_OUTPUT_FILE_SIZE: nat := 50 * 1024 * 1024
  const DEFAULT_RETENTION_MS: Time := 7 * 24 * 60 * 60 * 1000
  const DEFAULT_MAX_TOTAL_BYTES: nat := 512 * 1024 * 1024
  const DEFAULT_KEEP_RECENT_TASKS: nat := 200

  datatype PendingWrites = PendingWrites(stdoutQueue: seq<Bytes>, stderrQueue: seq<Bytes>)

  const NEW_ENTRY: OutputEntry := OutputEntry(Counted([], 0), Counted([], 0))

  function Part(entry: OutputEntry, stream: Stream): Counted {
    if stream == Stdout then entry.stdout else entry.stderr
  }

  /** A stream as it is after it was read back from disk. */
  function Reloaded(s: StreamState): StreamState {
    s.(tail := Last(s.file, OUTPUT_TAIL_LIMIT), bytes := |s.file|)
  }

  function ContentIn(files: Files, key: FileKey): Bytes {
    if key in files then files[key].content else []
  }

  class OutputStore {
    const maxOutputFileSize: nat
    var inMemory: map<TaskId, OutputEntry>
    var pending: map<TaskId, PendingWrites>
    var files: Files

    ghost predicate Valid()
      reads this
    {
      pending.Keys <= inMemory.Keys
    }

    function Content(key: FileKey): Bytes
      reads this
    {
      ContentIn(files, key)
    }

    function Queue(taskId: TaskId, stream: Stream): seq<Bytes>
      reads this
    {
      if taskId !in pending then []
      else if stream == Stdout then pending[taskId].stdoutQueue else pending[taskId].stderrQueue
    }

    /** One stream of a task: memory, queue and file together. */
    function View(taskId: TaskId, stream: Stream): StreamState
      reads this
    {
      var part := if taskId in inMemory then Part(inMemory[taskId], stream) else Counted([], 0);
      StreamState(part.tail, part.bytes, Queue(taskId, stream), Content(FileKey(taskId, stream)))
    }

    constructor (maxOutputFileSize: nat := DEFAULT_MAX_OUTPUT_FILE_SIZE, files: Files)
      ensures Valid() && this.maxOutputFileSize == maxOutputFileSize && this.files == files
      ensures inMemory == map[] && pending == map[]
    {
      this.maxOutputFileSize := maxOutputFileSize;
      inMemory, pending, this.files := map[], map[], files;
    }

    method EnsureEntry(taskId: TaskId) returns (entry: OutputEntry)
      requires Valid()
      modifies `inMemory
      ensures Valid() && taskId in inMemory && entry == inMemory[taskId]
      ensures inMemory == old(inMemory)[taskId := if taskId in old(inMemory) then old(inMemory)[taskId] else NEW_ENTRY]
    {
      if taskId !in inMemory {
        inMemory := inMemory[taskId := NEW_ENTRY];
      }
      entry := inMemory[taskId];
    }

    method Enqueue(taskId: TaskId, stream: Stream, data: Bytes)
      requires Valid() && taskId in inMemory
      modifies `pending
      ensures Valid() && pending.Keys == old(pending).Keys + {taskId}
      ensures forall id, s :: Queue(id, s) ==
                if id == taskId && s == stream then old(Queue(id, s)) + [data] else old(Queue(id, s))
    {
      var p := if taskId in pending then pending[taskId] else PendingWrites([], []);
      pending := pending[taskId :=
        if stream == Stdout then p.(stdoutQueue := p.stdoutQueue + [data]) else p.(stderrQueue := p.stderrQueue + [data])];
    }

    method AppendStdout(taskId: TaskId, data: Bytes)
      requires Valid()
      modifies `inMemory, `pending
      ensures Valid() && taskId in inMemory
      ensures forall id, s :: View(id, s) ==
                if id == taskId && s == Stdout then Appended(old(View(id, s)), data) else old(View(id, s))
    {
      var entry := EnsureEntry(taskId);
      var part := Counted(AppendTail(entry.stdout.tail, data), entry.stdout.bytes + |data|);
      inMemory := inMemory[taskId := entry.(stdout := part)];
      Enqueue(taskId, Stdout, data);
    }

    method AppendStderr(taskId: TaskId, data: Bytes)
      requires Valid()
      modifies `inMemory, `pending
      ensures Valid() && taskId in inMemory
      ensures forall id, s :: View(id, s) ==
                if id == taskId && s == Stderr then Appended(old(View(id, s)), data) else old(View(id, s))
    {
      var entry := EnsureEntry(taskId);
      var part := Counted(AppendTail(entry.stderr.tail, data), entry.stderr.bytes + |data|);
      inMemory := inMemory[taskId := entry.(stderr := part)];
      Enqueue(taskId, Stderr, data);
    }

    /** Appends a queue to a file, up to the cap; an empty queue does not even create the file. */
    method FlushQueue(key: FileKey, queue: seq<Bytes>, now: Time)
      modifies `files
      ensures Content(key) == WithQueue(old(Content(key)), queue, maxOutputFileSize)
      ensures key in old(files) ==> key in files
      ensures forall k :: k != key ==> (k in files <==> k in old(files)) && (k in files ==> files[k] == old(files)[k])
    {
      if |queue| == 0 {
        assert First(Joined(queue), 0) == [];
        assert Content(key) + [] == Content(key);
        return;
      }
      var buf := Joined(queue);
      var existing := |Content(key)|;
      if maxOutputFileSize <= existing {
        return;
      }
      var remaining := maxOutputFileSize - existing;
      var data := if |buf| <= remaining then buf else buf[..remaining];
      files := files[key := OutputFile(Content(key) + data, now)];
    }

    /** Writes both queues of a task to its files. */
    method FlushBoth(taskId: TaskId, p: PendingWrites, now: Time)
      modifies `files
      ensures forall s :: Content(FileKey(taskId, s)) ==
                var queue := if s == Stdout then p.stdoutQueue else p.stderrQueue;
                WithQueue(old(Content(FileKey(taskId, s))), queue, maxOutputFileSize)
      ensures forall key <- old(files) :: key in files
      ensures forall key: FileKey :: key.taskId != taskId ==>
                (key in files <==> key in old(files)) && (key in files ==> files[key] == old(files)[key])
    {
      FlushQueue(FileKey(taskId, Stdout), p.stdoutQueue, now);
      FlushQueue(FileKey(taskId, Stderr), p.stderrQueue, now);
      forall s
        ensures Content(FileKey(taskId, s)) ==
                var queue := if s == Stdout then p.stdoutQueue else p.stderrQueue;
                WithQueue(old(Content(FileKey(taskId, s))), queue, maxOutputFileSize)
      {
        match s case Stdout => case Stderr =>
      }
    }

    /** Both queues of a task reach its files; nothing else changes. */
    method Flush(taskId: TaskId, now: Time)
      requires Valid()
      modifies `pending, `files
      ensures Valid() && pending == old(pending) - {taskId}
      ensures forall id, s :: View(id, s) ==
                if id == taskId then Flushed(old(View(id, s)), maxOutputFileSize) else old(View(id, s))
      ensures forall key <- old(files) :: key in files
      ensures forall key: FileKey :: key.taskId != taskId ==>
                (key in files <==> key in old(files)) && (key in files ==> files[key] == old(files)[key])
    {
      if taskId !in pending {
        forall s ensures View(taskId, s) == Flushed(View(taskId, s), maxOutputFileSize) {
          EmptyFlush(View(taskId, s), maxOutputFileSize);
        }
        assert pending == pending - {taskId};
        return;
      }
      var p := pending[taskId];
      pending := pending - {taskId};
      FlushBoth(taskId, p, now);
    }

    method FlushAll(now: Time)
      requires Valid()
      modifies `pending, `files
      ensures Valid() && pending == map[]
      ensures forall id, s :: View(id, s) == Flushed(old(View(id, s)), maxOutputFileSize)
    {
      var todo := pending.Keys;
      while todo != {}
        invariant Valid() && pending.Keys == todo <= old(pending).Keys
        invariant forall id, s :: View(id, s) ==
                    if id in old(pending) && id !in todo then Flushed(old(View(id, s)), maxOutputFileSize)
                    else old(View(id, s))
        decreases |todo|
      {
        var taskId :| taskId in todo;
        todo := todo - {taskId};
        Flush(taskId, now);
      }
      forall id, s | id !in old(pending) ensures old(View(id, s)) == Flushed(old(View(id, s)), maxOutputFileSize) {
        EmptyFlush(old(View(id, s)), maxOutputFileSize);
      }
    }

    /** The entry in memory, or one rebuilt from the files when there are any. */
    method Get(taskId: TaskId) returns (entry: Option<OutputEntry>)
      requires Valid()
      modifies `inMemory
      ensures Valid() && old(inMemory).Keys <= inMemory.Keys
      ensures forall id, s :: View(id, s) ==
                if id == taskId && id !in old(inMemory) then Reloaded(old(View(id, s))) else old(View(id, s))
      ensures entry == if taskId in inMemory then Some(inMemory[taskId]) else None
      ensures entry == None <==>
              taskId !in old(inMemory) && FileKey(taskId, Stdout) !in files && FileKey(taskId, Stderr) !in files
    {
      if taskId in inMemory {
        return Some(inMemory[taskId]);
      }
      if FileKey(taskId, Stdout) !in files && FileKey(taskId, Stderr) !in files {
        forall s ensures FileKey(taskId, s) !in files {
          match s case Stdout => case Stderr =>
        }
        return None;
      }
      var out, err := Content(FileKey(taskId, Stdout)), Content(FileKey(taskId, Stderr));
      var loaded := OutputEntry(
        Counted(Last(out, OUTPUT_TAIL_LIMIT), |out|), Counted(Last(err, OUTPUT_TAIL_LIMIT), |err|));
      inMemory := inMemory[taskId := loaded];
      return Some(loaded);
    }

    /** Both streams of a task, whole or their ends; a full read flushes the queue first. */
    method GetOutput(taskId: TaskId, full: bool, returnLimit: nat := DEFAULT_OUTPUT_RETURN_LIMIT, now: Time)
      returns (stdout: Reading, stderr: Reading)
      requires Valid()
      modifies `inMemory, `pending, `files
      ensures Valid()
      ensures forall s :: (if s == Stdout then stdout else stderr) ==
                var seen := if taskId in old(inMemory) then old(View(taskId, s)) else Reloaded(old(View(taskId, s)));
                if full then FullReading(seen, maxOutputFileSize) else TailReading(seen, maxOutputFileSize, returnLimit)
      ensures forall id, s :: View(id, s) ==
                var seen := if id == taskId && id !in old(inMemory) then Reloaded(old(View(id, s))) else old(View(id, s));
                if id == taskId && full then Flushed(seen, maxOutputFileSize) else seen
    {
      var entry := Get(taskId);
      var counted := if entry.Some? then entry.value else NEW_ENTRY;
      if full {
        Flush(taskId, now);
        stdout := WholeFile(FileKey(taskId, Stdout), counted.stdout.bytes);
        stderr := WholeFile(FileKey(taskId, Stderr), counted.stderr.bytes);
      } else {
        stdout := Tail(counted.stdout, returnLimit);
        stderr := Tail(counted.stderr, returnLimit);
      }
    }

    function WholeFile(key: FileKey, bytes: nat): Reading
      reads this
    {
      var text := Content(key);
      Reading(text, bytes, bytes > |text| || bytes > maxOutputFileSize, bytes > maxOutputFileSize)
    }

    function Tail(part: Counted, returnLimit: nat): Reading {
      var limited := if |part.tail| <= returnLimit then part.tail else part.tail[|part.tail| - returnLimit..];
      Reading(
        limited, part.bytes,
        part.bytes > |part.tail| || part.bytes > maxOutputFileSize || |part.tail| > returnLimit,
        part.bytes > maxOutputFileSize)
    }

    method SafeUnlink(key: FileKey, stuck: set<FileKey>) returns (gone: bool)
      modifies `files
      ensures gone <==> key in old(files) && key !in stuck
      ensures files == if gone then old(files) - {key} else old(files)
    {
      if key !in files || key in stuck {
        return false;
      }
      files := files - {key};
      return true;
    }

    /** Where a clean-up stands, given its counters. */
    function Sweeping(tally: Tally): Sweep
      reads this
    {
      Sweep(files, inMemory, tally)
    }

    /** Deletes one file and counts it, and deletes the entry of a task that has no file left. */
    method DeleteFile(file: Record, p: Policy, start: Tally) returns (tally: Tally, gone: bool)
      modifies `files, `inMemory
      ensures Sweeping(tally) == Unlinked(old(Sweeping(start)), p, file)
      ensures gone <==> file.key in old(files) && file.key !in p.stuck
    {
      tally := start;
      gone := SafeUnlink(file.key, p.stuck);
      if !gone {
        return;
      }
      tally := tally.(
        deletedFiles := tally.deletedFiles + 1, deletedBytes := tally.deletedBytes + file.size,
        totalBytes := tally.totalBytes - file.size);
      if FileKey(file.key.taskId, Stdout) !in files && FileKey(file.key.taskId, Stderr) !in files {
        inMemory := inMemory - {file.key.taskId};
      }
    }

    /** First pass: the files past their retention go, unless their task is sheltered. */
    method DeleteExpired(records: seq<Record>, p: Policy, start: Tally) returns (tally: Tally, deleted: set<FileKey>)
      modifies `files, `inMemory
      ensures Sweeping(tally) == FirstPass(old(Sweeping(start)), p, records)
      ensures deleted == old(files).Keys - files.Keys
    {
      tally, deleted := start, {};
      assert records[0..] == records;
      for i := 0 to |records|
        invariant FirstPass(Sweeping(tally), p, records[i..]) == FirstPass(old(Sweeping(start)), p, records)
        invariant files.Keys <= old(files).Keys && deleted == old(files).Keys - files.Keys
      {
        var file := records[i];
        assert records[i..][1..] == records[i + 1..];
        if file.key.taskId in p.sheltered {
          tally := tally.(keptFiles := tally.keptFiles + 1);
          continue;
        }
        if p.now - file.mtimeMs > p.retentionMs {
          var gone;
          tally, gone := DeleteFile(file, p, tally);
          if gone {
            deleted := deleted + {file.key};
          }
        }
      }
    }

    /** Second pass: the files go in order, unless their task is sheltered, while the total is over the budget. */
    method TrimToBudget(order: seq<Timed<Record>>, p: Policy, start: Tally) returns (tally: Tally)
      modifies `files, `inMemory
      ensures Sweeping(tally) == SecondPass(old(Sweeping(start)), p, order)
    {
      tally := start;
      assert order[0..] == order;
      for i := 0 to |order|
        invariant SecondPass(Sweeping(tally), p, order[i..]) == SecondPass(old(Sweeping(start)), p, order)
      {
        if tally.totalBytes <= p.maxTotalBytes {
          return;
        }
        var file := order[i].key;
        assert order[i..][1..] == order[i + 1..];
        if file.key.taskId in p.sheltered {
          tally := tally.(keptFiles := tally.keptFiles + 1);
          continue;
        }
        var gone;
        tally, gone := DeleteFile(file, p, tally);
      }
    }

    /** The directory's files, in whatever order it lists them. */
    method ListOutputFiles() returns (records: seq<Record>)
      ensures Lists(records, files)
    {
      records := [];
      var todo := files.Keys;
      while todo != {}
        invariant todo <= files.Keys && DistinctKeys(records) && RecordKeys(records) == files.Keys - todo
        invariant forall r <- records ::
                    r.key in files && r.key !in todo && r.size == |files[r.key].content| && r.mtimeMs == files[r.key].mtimeMs
        decreases |todo|
      {
        var key :| key in todo;
        todo := todo - {key};
        var record := Record(key, |files[key].content|, files[key].mtimeMs);
        assert RecordKeys(records + [record]) == RecordKeys(records) + {key};
        records := records + [record];
      }
    }

    /** Both passes over a listing. */
    method CollectListed(records: seq<Record>, p: Policy) returns (tally: Tally)
      modifies `files, `inMemory
      ensures Sweeping(tally) == Cleaned(old(files), old(inMemory), p, records)
    {
      var deleted;
      tally, deleted := DeleteExpired(records, p, Tally(0, 0, 0, Total(records, files.Keys)));
      if tally.totalBytes > p.maxTotalBytes {
        tally := TrimToBudget(SortByTime(Remaining(records, deleted)), p, tally);
      }
    }

    /** Flushes everything, then deletes what the policy says. */
    method Cleanup(
      retentionMs: Time := DEFAULT_RETENTION_MS, maxTotalBytes: nat := DEFAULT_MAX_TOTAL_BYTES,
      keepRecentTasks: nat := DEFAULT_KEEP_RECENT_TASKS, protectedIds: set<TaskId>, now: Time, stuck: set<FileKey>)
      returns (tally: Tally, ghost records: seq<Record>, ghost before: Files, ghost recent: set<TaskId>, ghost p: Policy)
      requires Valid()
      modifies `inMemory, `pending, `files
      ensures Valid() && pending == map[]
      ensures Lists(records, before) && AreRecent(recent, records, keepRecentTasks)
      ensures p == Policy(protectedIds + recent, stuck, retentionMs, maxTotalBytes, now)
      ensures forall id, s :: ContentIn(before, FileKey(id, s)) == Flushed(old(View(id, s)), maxOutputFileSize).file
      ensures InStep(Sweeping(tally), records, before, old(inMemory)) && Collected(p, records, files)
      ensures tally.keptFiles ==
              SpareCount(p, records) + MetOverBudget(p, SecondOrder(p, records), FirstTotal(p, records, before))
    {
      FlushAll(now);
      before := files;
      var listed := ListOutputFiles();
      var newest := RecentTasks(listed, keepRecentTasks);
      records, recent := listed, newest;
      var policy := Policy(protectedIds + newest, stuck, retentionMs, maxTotalBytes, now);
      p := policy;
      CleanedKeeps(files, inMemory, policy, listed);
      tally := CollectListed(listed, policy);
    }

    /** Forgets a task: its entry, its queue, and its files as far as they can be deleted. */
    method Remove(taskId: TaskId, now: Time, stuck: set<FileKey>)
      requires Valid()
      modifies `inMemory, `pending, `files
      ensures Valid() && taskId !in inMemory && taskId !in pending
      ensures forall s :: FileKey(taskId, s) in files ==> FileKey(taskId, s) in stuck
      ensures forall s :: FileKey(taskId, s) in old(files) && FileKey(taskId, s) in stuck ==> FileKey(taskId, s) in files
      ensures forall id, s :: id != taskId ==> View(id, s) == old(View(id, s))
      ensures forall key: FileKey :: key.taskId != taskId ==>
                (key in files <==> key in old(files)) && (key in files ==> files[key] == old(files)[key])
    {
      Flush(taskId, now);
      inMemory := inMemory - {taskId};
      var _ := SafeUnlink(FileKey(taskId, Stdout), stuck);
      var _ := SafeUnlink(FileKey(taskId, Stderr), stuck);
      forall s ensures FileKey(taskId, s) in files ==> FileKey(taskId, s) in stuck {
        match s case Stdout => case Stderr =>
      }
    }
  }

  // ---- Restarts

  /** What is left of a stream when the process ends: its file. */
  function Forgotten(s: StreamState): StreamState {
    StreamState([], 0, [], s.file)
  }

  /** What had reached the file when the process ended is the whole stream for those who come after. */
  lemma RestartHolds(s: StreamState, text: Bytes, cap: nat)
    requires Holds(s, text, cap)
    ensures
      var written := text[..|text| - |Joined(s.queue)|];
      Holds(Reloaded(Forgotten(s)), First(written, cap), cap)
  {
    var kept := First(text[..|text| - |Joined(s.queue)|], cap);
    assert Joined([]) == [] && kept[..|kept|] == kept;
    assert First(kept, cap) == kept;
  }

  /**
   A restart is invisible to the readers of a flushed stream within the cap: both kinds of read give what
   they gave before. Of a longer stream they give the first bytes, up to the cap, as if that were all of it.
   */
  lemma RestartIsInvisible(s: StreamState, text: Bytes, cap: nat, limit: nat)
    requires Holds(s, text, cap) && s.queue == []
    ensures
      var after := Reloaded(Forgotten(s));
      |text| <= cap ==>
        TailReading(after, cap, limit) == TailReading(s, cap, limit) && FullReading(after, cap) == FullReading(s, cap)
    ensures
      var after, kept := Reloaded(Forgotten(s)), First(text, cap);
      var reach := if limit < OUTPUT_TAIL_LIMIT then limit else OUTPUT_TAIL_LIMIT;
      && TailReading(after, cap, limit) == Reading(Last(kept, reach), |kept|, |kept| > reach, false)
      && FullReading(after, cap) == Reading(kept, |kept|, false, false)
  {
    var after, kept := Reloaded(Forgotten(s)), First(text, cap);
    assert text[..|text|] == text;
    RestartHolds(s, text, cap);
    FullReadingTells(s, text, cap);
    FullReadingTells(after, kept, cap);
    TailReadingTells(s, text, cap, limit);
    TailReadingTells(after, kept, cap, limit);
    assert First(kept, cap) == kept;
  }

  lemma EmptyFlush(s: StreamState, cap: nat)
    requires s.queue == []
    ensures Flushed(s, cap) == s
  {
    assert WithQueue(s.file, [], cap) == s.file;
  }
}
