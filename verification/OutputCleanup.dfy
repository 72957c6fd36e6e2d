/**
 The clean-up of the output directory (src/scheduler/output-store.ts): its two
 passes as functions on files, entries and counters, and what they promise.
 */
module OutputCleanup {
  import opened Base
  import opened OutputStreams
  import opened TimeOrder
  import opened Retention

  /** What one clean-up goes by: the tasks it shelters, the files that cannot be deleted, and the limits. */
  datatype Policy = Policy(
    sheltered: set<TaskId>, stuck: set<FileKey>, retentionMs: Time, maxTotalBytes: nat, now: Time)

  datatype Tally = Tally(deletedFiles: nat, deletedBytes: nat, keptFiles: nat, totalBytes: int)

  /** How far a clean-up has come. */
  datatype Sweep = Sweep(files: Files, memory: map<TaskId, OutputEntry>, tally: Tally)

  predicate IsSheltered(p: Policy, r: Record) {
    r.key.taskId in p.sheltered
  }

  predicate IsSpared(p: Policy, r: Record) {
    IsSheltered(p, r) || r.key in p.stuck
  }

  predicate IsExpired(p: Policy, r: Record) {
    !IsSheltered(p, r) && p.now - r.mtimeMs > p.retentionMs
  }

  function Kept(w: Sweep): Sweep {
    w.(tally := w.tally.(keptFiles := w.tally.keptFiles + 1))
  }

  /** One file is deleted, if it can be, and with the last file of a task its entry. */
  function Unlinked(w: Sweep, p: Policy, r: Record): Sweep {
    if r.key !in w.files || r.key in p.stuck then w
    else
      var files, id := w.files - {r.key}, r.key.taskId;
      Sweep(
        files,
        if FileKey(id, Stdout) !in files && FileKey(id, Stderr) !in files then w.memory - {id} else w.memory,
        w.tally.(
          deletedFiles := w.tally.deletedFiles + 1, deletedBytes := w.tally.deletedBytes + r.size,
          totalBytes := w.tally.totalBytes - r.size))
  }

  function FirstStep(w: Sweep, p: Policy, r: Record): Sweep {
    if IsSheltered(p, r) then Kept(w)
    else if p.now - r.mtimeMs > p.retentionMs then Unlinked(w, p, r)
    else w
  }

  /** The first pass: files past their retention. */
  function FirstPass(w: Sweep, p: Policy, records: seq<Record>): Sweep
    decreases |records|
  {
    if records == [] then w else FirstPass(FirstStep(w, p, records[0]), p, records[1..])
  }

  function SecondStep(w: Sweep, p: Policy, r: Record): Sweep {
    if IsSheltered(p, r) then Kept(w) else Unlinked(w, p, r)
  }

  /** The second pass: in the order given, while the total is over the budget. */
  function SecondPass(w: Sweep, p: Policy, order: seq<Timed<Record>>): Sweep
    decreases |order|
  {
    if order == [] || w.tally.totalBytes <= p.maxTotalBytes then w
    else SecondPass(SecondStep(w, p, order[0].key), p, order[1..])
  }

  function Begun(files: Files, memory: map<TaskId, OutputEntry>, records: seq<Record>): Sweep {
    Sweep(files, memory, Tally(0, 0, 0, Total(records, files.Keys)))
  }

  /** The files a pass has left, with their times. */
  function Remaining(records: seq<Record>, deleted: set<FileKey>): (r: seq<Timed<Record>>)
    ensures forall x :: x in r <==> x.key in records && x.key.key !in deleted && x.time == x.key.mtimeMs
  {
    if records == [] then []
    else (if records[0].key in deleted then [] else [Timed(records[0], records[0].mtimeMs)]) + Remaining(records[1..], deleted)
  }

  lemma RemainingNoRepeat(records: seq<Record>, deleted: set<FileKey>)
    requires DistinctKeys(records)
    ensures NoRepeat(Remaining(records, deleted))
  {
    if records != [] {
      RemainingNoRepeat(records[1..], deleted);
      assert forall i :: 0 <= i < |records[1..]| ==> records[1..][i].key != records[0].key;
      assert records[0] !in records[1..];
      var rest := Remaining(records[1..], deleted);
      if records[0].key in deleted {
        assert Remaining(records, deleted) == rest;
      } else {
        assert Remaining(records, deleted)[1..] == rest;
      }
    }
  }

  /** A whole clean-up over a listing of the directory. */
  function Cleaned(files: Files, memory: map<TaskId, OutputEntry>, p: Policy, records: seq<Record>): Sweep {
    var first := FirstPass(Begun(files, memory, records), p, records);
    SecondPass(first, p, SortByTime(Remaining(records, files.Keys - first.files.Keys)))
  }

  // ---- Counters and entries

  /** A task that lost a file and has none left. */
  ghost predicate Forgotten(before: Files, after: Files, taskId: TaskId) {
    && (exists s :: FileKey(taskId, s) in before && FileKey(taskId, s) !in after)
    && forall s :: FileKey(taskId, s) !in after
  }

  /** Entries go with the last file of their task. */
  ghost predicate Trimmed(mem: map<TaskId, OutputEntry>, before: Files, after: Files, left: map<TaskId, OutputEntry>) {
    && left.Keys <= mem.Keys && (forall id <- left :: left[id] == mem[id])
    && forall id <- mem :: id in left <==> !Forgotten(before, after, id)
  }

  /** The counters say what has happened to the files. */
  predicate Balanced(tally: Tally, records: seq<Record>, before: Files, after: Files) {
    && tally.totalBytes == Total(records, after.Keys)
    && tally.deletedBytes == Total(records, before.Keys) - Total(records, after.Keys)
    && tally.deletedFiles == |before| - |after|
  }

  /** What a clean-up that began with `before` and `memory` keeps to at every moment. */
  ghost predicate InStep(w: Sweep, records: seq<Record>, before: Files, memory: map<TaskId, OutputEntry>) {
    && w.files.Keys <= before.Keys && (forall key <- w.files :: w.files[key] == before[key])
    && Trimmed(memory, before, w.files, w.memory) && Balanced(w.tally, records, before, w.files)
  }

  lemma BothStreamsGone(files: Files, id: TaskId)
    ensures (forall s :: FileKey(id, s) !in files) <==> FileKey(id, Stdout) !in files && FileKey(id, Stderr) !in files
  {
    if FileKey(id, Stdout) !in files && FileKey(id, Stderr) !in files {
      forall s ensures FileKey(id, s) !in files {
        match s case Stdout => case Stderr =>
      }
    }
  }

  lemma UnlinkedTrims(w: Sweep, p: Policy, r: Record, before: Files, memory: map<TaskId, OutputEntry>)
    requires w.files.Keys <= before.Keys && Trimmed(memory, before, w.files, w.memory)
    ensures Trimmed(memory, before, Unlinked(w, p, r).files, Unlinked(w, p, r).memory)
  {
    var after, id := Unlinked(w, p, r).files, r.key.taskId;
    if r.key in w.files && r.key !in p.stuck {
      BothStreamsGone(after, id);
      assert FileKey(id, r.key.stream) in before && FileKey(id, r.key.stream) !in after;
      forall other | other != id ensures Forgotten(before, after, other) <==> Forgotten(before, w.files, other) {
        assert forall s :: FileKey(other, s) in after <==> FileKey(other, s) in w.files;
      }
      assert FileKey(id, r.key.stream) in w.files;
    }
  }

  lemma UnlinkedBalances(w: Sweep, p: Policy, r: Record, records: seq<Record>, before: Files)
    requires DistinctKeys(records) && r in records && Balanced(w.tally, records, before, w.files)
    ensures Balanced(Unlinked(w, p, r).tally, records, before, Unlinked(w, p, r).files)
  {
    if r.key in w.files && r.key !in p.stuck {
      TotalDrops(records, w.files.Keys, r);
      assert (w.files - {r.key}).Keys == w.files.Keys - {r.key};
    }
  }

  lemma UnlinkedInStep(w: Sweep, p: Policy, r: Record, records: seq<Record>, before: Files, memory: map<TaskId, OutputEntry>)
    requires DistinctKeys(records) && r in records && InStep(w, records, before, memory)
    ensures InStep(Unlinked(w, p, r), records, before, memory)
  {
    UnlinkedTrims(w, p, r, before, memory);
    UnlinkedBalances(w, p, r, records, before);
  }

  lemma {:induction false} FirstPassInStep(
    w: Sweep, p: Policy, rest: seq<Record>, records: seq<Record>, before: Files, memory: map<TaskId, OutputEntry>)
    requires DistinctKeys(records) && (forall r <- rest :: r in records) && InStep(w, records, before, memory)
    ensures InStep(FirstPass(w, p, rest), records, before, memory)
    decreases |rest|
  {
    if rest != [] {
      assert rest[0] in rest;
      UnlinkedInStep(w, p, rest[0], records, before, memory);
      FirstPassInStep(FirstStep(w, p, rest[0]), p, rest[1..], records, before, memory);
    }
  }

  lemma {:induction false} SecondPassInStep(
    w: Sweep, p: Policy, order: seq<Timed<Record>>, records: seq<Record>, before: Files, memory: map<TaskId, OutputEntry>)
    requires DistinctKeys(records) && (forall x <- order :: x.key in records) && InStep(w, records, before, memory)
    ensures InStep(SecondPass(w, p, order), records, before, memory)
    decreases |order|
  {
    if order != [] && w.tally.totalBytes > p.maxTotalBytes {
      assert order[0] in order;
      UnlinkedInStep(w, p, order[0].key, records, before, memory);
      SecondPassInStep(SecondStep(w, p, order[0].key), p, order[1..], records, before, memory);
    }
  }

  lemma BegunInStep(files: Files, memory: map<TaskId, OutputEntry>, records: seq<Record>)
    ensures InStep(Begun(files, memory, records), records, files, memory)
  {
  }

  // ---- What the first pass deletes and counts

  /** The files past their retention, without those that cannot be deleted. */
  function ExpiredKeys(p: Policy, records: seq<Record>): set<FileKey> {
    set r | r in records && IsExpired(p, r) && r.key !in p.stuck :: r.key
  }

  function SpareCount(p: Policy, records: seq<Record>): nat {
    if records == [] then 0 else (if IsSheltered(p, records[0]) then 1 else 0) + SpareCount(p, records[1..])
  }

  lemma ExpiredHead(p: Policy, records: seq<Record>)
    requires records != []
    ensures ExpiredKeys(p, records) ==
            ExpiredKeys(p, records[1..]) +
            if IsExpired(p, records[0]) && records[0].key !in p.stuck then {records[0].key} else {}
  {
    assert records == [records[0]] + records[1..];
  }

  lemma WithoutOneMore(files: Files, key: FileKey, gone: set<FileKey>)
    ensures files - {key} - gone == files - (gone + {key})
  {
  }

  lemma {:induction false} FirstPassDeletes(w: Sweep, p: Policy, records: seq<Record>)
    requires DistinctKeys(records) && forall r <- records :: r.key in w.files
    ensures FirstPass(w, p, records).files == w.files - ExpiredKeys(p, records)
    ensures FirstPass(w, p, records).tally.keptFiles == w.tally.keptFiles + SpareCount(p, records)
    decreases |records|
  {
    if records == [] {
      assert ExpiredKeys(p, records) == {};
      assert w.files - {} == w.files;
    } else {
      var r, rest := records[0], records[1..];
      ExpiredHead(p, records);
      WithoutOneMore(w.files, r.key, ExpiredKeys(p, rest));
      forall x | x in rest ensures x.key in FirstStep(w, p, r).files {
        assert x in records && x.key != r.key;
      }
      assert r in records;
      FirstPassDeletes(FirstStep(w, p, r), p, rest);
    }
  }

  // ---- What the second pass deletes and counts

  /** The files that a pass over `order` deletes. */
  function Victims(p: Policy, order: seq<Timed<Record>>): set<FileKey> {
    set x | x in order && !IsSpared(p, x.key) :: x.key.key
  }

  lemma VictimsHead(p: Policy, order: seq<Timed<Record>>, n: nat)
    requires 0 < n <= |order|
    ensures Victims(p, order[..n]) ==
            Victims(p, order[1..][..n - 1]) + if IsSpared(p, order[0].key) then {} else {order[0].key.key}
  {
    assert order[..n] == [order[0]] + order[1..][..n - 1];
  }

  /** How many files the second pass looks at. */
  function Visited(w: Sweep, p: Policy, order: seq<Timed<Record>>): (n: nat)
    ensures n <= |order|
    decreases |order|
  {
    if order == [] || w.tally.totalBytes <= p.maxTotalBytes then 0
    else 1 + Visited(SecondStep(w, p, order[0].key), p, order[1..])
  }

  /** The order names different files, all of them there. */
  ghost predicate Present(order: seq<Timed<Record>>, files: Files) {
    && (forall x <- order :: x.key.key in files)
    && forall i, j :: 0 <= i < j < |order| ==> order[i].key.key != order[j].key.key
  }

  lemma PresentTail(w: Sweep, p: Policy, order: seq<Timed<Record>>)
    requires order != [] && Present(order, w.files)
    ensures Present(order[1..], SecondStep(w, p, order[0].key).files)
  {
    forall x | x in order[1..] ensures x.key.key in SecondStep(w, p, order[0].key).files {
      assert x in order && x.key.key != order[0].key.key;
    }
  }

  lemma {:induction false} SecondPassDeletes(w: Sweep, p: Policy, order: seq<Timed<Record>>)
    requires Present(order, w.files)
    ensures
      var r, n := SecondPass(w, p, order), Visited(w, p, order);
      && r.files == w.files - Victims(p, order[..n])
      && (r.tally.totalBytes <= p.maxTotalBytes || n == |order|)
    decreases |order|
  {
    if order == [] || w.tally.totalBytes <= p.maxTotalBytes {
      assert Victims(p, order[..0]) == {};
      assert w.files - {} == w.files;
    } else {
      var next := SecondStep(w, p, order[0].key);
      assert order[0] in order;
      PresentTail(w, p, order);
      SecondPassDeletes(next, p, order[1..]);
      VictimsHead(p, order, Visited(w, p, order));
      WithoutOneMore(w.files, order[0].key.key, Victims(p, order[1..][..Visited(next, p, order[1..])]));
    }
  }

  /** Some victim's size would bring the total over the budget again, if there is any victim. */
  lemma {:induction false} LastVictimWasNeeded(w: Sweep, p: Policy, order: seq<Timed<Record>>)
    requires Present(order, w.files)
    ensures
      var r, n := SecondPass(w, p, order), Visited(w, p, order);
      && (Victims(p, order[..n]) == {} ==> r.tally.totalBytes == w.tally.totalBytes)
      && (Victims(p, order[..n]) != {} ==>
            exists x :: x in order && x.key.key in Victims(p, order[..n]) && r.tally.totalBytes + x.key.size > p.maxTotalBytes)
    decreases |order|
  {
    if order != [] && w.tally.totalBytes > p.maxTotalBytes {
      var next, n := SecondStep(w, p, order[0].key), Visited(w, p, order);
      var later := Victims(p, order[1..][..n - 1]);
      assert order[0] in order;
      PresentTail(w, p, order);
      LastVictimWasNeeded(next, p, order[1..]);
      VictimsHead(p, order, n);
      var r := SecondPass(w, p, order);
      if later != {} {
        var x :| x in order[1..] && x.key.key in later && r.tally.totalBytes + x.key.size > p.maxTotalBytes;
        assert x in order;
      }
    }
  }

  /** The sheltered files that a pass over `order` meets while the total is over the budget. */
  function MetOverBudget(p: Policy, order: seq<Timed<Record>>, total: int): nat
    decreases |order|
  {
    if order == [] || total <= p.maxTotalBytes then 0
    else if IsSheltered(p, order[0].key) then 1 + MetOverBudget(p, order[1..], total)
    else MetOverBudget(p, order[1..], if order[0].key.key in p.stuck then total else total - order[0].key.size)
  }

  lemma {:induction false} SecondPassCounts(w: Sweep, p: Policy, order: seq<Timed<Record>>)
    requires Present(order, w.files)
    ensures SecondPass(w, p, order).tally.keptFiles ==
            w.tally.keptFiles + MetOverBudget(p, order, w.tally.totalBytes)
    decreases |order|
  {
    if order != [] && w.tally.totalBytes > p.maxTotalBytes {
      assert order[0] in order;
      PresentTail(w, p, order);
      SecondPassCounts(SecondStep(w, p, order[0].key), p, order[1..]);
    }
  }

  // ---- The order of the second pass

  /** The order is the directory's, oldest first. */
  ghost predicate Oldest(order: seq<Timed<Record>>, records: seq<Record>, files: Files) {
    && DistinctKeys(records) && Ascending(order) && NoRepeat(order)
    && (forall x <- order :: x.key in records && x.time == x.key.mtimeMs && x.key.key in files)
    && (forall r <- records :: r.key in files ==> Timed(r, r.mtimeMs) in order)
  }

  lemma OrderIsOldest(records: seq<Record>, deleted: set<FileKey>, files: Files)
    requires DistinctKeys(records) && files.Keys == RecordKeys(records) - deleted
    ensures Oldest(SortByTime(Remaining(records, deleted)), records, files)
  {
    RemainingNoRepeat(records, deleted);
    SortNoRepeat(Remaining(records, deleted));
    SortSorts(Remaining(records, deleted));
  }

  lemma SameKeySameRecord(records: seq<Record>, a: Record, b: Record)
    requires DistinctKeys(records) && a in records && b in records && a.key == b.key
    ensures a == b
  {
  }

  lemma OldestIsPresent(order: seq<Timed<Record>>, records: seq<Record>, files: Files)
    requires Oldest(order, records, files)
    ensures Present(order, files)
  {
    forall i, j | 0 <= i < j < |order| ensures order[i].key.key != order[j].key.key {
      NoRepeatAt(order, j);
      assert order[i] == order[..j][i] && order[i] in order && order[j] in order;
      if order[i].key.key == order[j].key.key {
        SameKeySameRecord(records, order[i].key, order[j].key);
      }
    }
  }

  lemma WholePrefix<T>(s: seq<T>, n: nat)
    requires n <= |s|
    ensures n == |s| ==> s[..n] == s
  {
  }

  /** What the victims of the oldest-first pass are to those left. */
  lemma VictimsAreOldest(
    order: seq<Timed<Record>>, records: seq<Record>, files: Files, n: nat, p: Policy, victim: Record, survivor: Record)
    requires Oldest(order, records, files) && n <= |order|
    requires victim in records && victim.key in Victims(p, order[..n])
    requires survivor in records && survivor.key in files && survivor.key !in Victims(p, order[..n])
    requires !IsSpared(p, survivor)
    ensures n < |order| && victim.mtimeMs <= survivor.mtimeMs
  {
    var x :| x in order[..n] && x.key.key == victim.key;
    assert x in order;
    SameKeySameRecord(records, x.key, victim);
    var y := Timed(survivor, survivor.mtimeMs);
    assert y in order && y !in order[..n];
    FirstAreNewest(order, n, x, y);
    WholePrefix(order, n);
  }

  // ---- The guarantee

  /**
   What a clean-up promises of the listed files. A spared file stays; every other file past its retention goes; the
   total is within the budget unless only spared files are left; no file left that could have gone is older than one
   that went for the budget; and without the last of those that went the budget would not be met.
   */
  ghost predicate Collected(p: Policy, records: seq<Record>, after: Files) {
    && (forall r <- records :: IsSpared(p, r) ==> r.key in after)
    && (forall r <- records :: IsExpired(p, r) && r.key !in p.stuck ==> r.key !in after)
    && (Total(records, after.Keys) <= p.maxTotalBytes || forall r <- records :: r.key in after ==> IsSpared(p, r))
    && (forall v <- records, w <- records ::
          v.key !in after && !IsExpired(p, v) && w.key in after && !IsSpared(p, w) ==> v.mtimeMs <= w.mtimeMs)
    && ((exists v <- records :: v.key !in after && !IsExpired(p, v)) ==>
          exists v <- records ::
            v.key !in after && !IsExpired(p, v) && Total(records, after.Keys) + v.size > p.maxTotalBytes)
  }

  /**
   The guarantee for one file: stuck files and those of sheltered tasks stay, the others go when they are older than
   the retention time, and younger ones go only if the budget needs it.
   */
  lemma CollectedTells(p: Policy, records: seq<Record>, after: Files, r: Record)
    requires Collected(p, records, after) && r in records
    ensures r.key.taskId in p.sheltered || r.key in p.stuck ==> r.key in after
    ensures r.key.taskId !in p.sheltered && r.key !in p.stuck && p.now - r.mtimeMs > p.retentionMs ==> r.key !in after
    ensures r.key !in after && p.now - r.mtimeMs <= p.retentionMs ==>
              exists v <- records :: v.key !in after && Total(records, after.Keys) + v.size > p.maxTotalBytes
  {
    if r.key !in after && p.now - r.mtimeMs <= p.retentionMs {
      assert !IsExpired(p, r);
    }
  }

  /** Which keys the two passes deleted, in terms of the records. */
  lemma DeletedRecords(p: Policy, records: seq<Record>, before: Files, order: seq<Timed<Record>>, n: nat, r: Record)
    requires Lists(records, before) && n <= |order| && r in records
    requires Oldest(order, records, before - ExpiredKeys(p, records))
    ensures r.key in before
    ensures r.key in ExpiredKeys(p, records) <==> IsExpired(p, r) && r.key !in p.stuck
    ensures r.key in Victims(p, order[..n]) ==> !IsSpared(p, r) && r.key !in ExpiredKeys(p, records)
  {
    assert r.key in RecordKeys(records);
    if r.key in ExpiredKeys(p, records) {
      var e :| e in records && e.key == r.key && IsExpired(p, e) && e.key !in p.stuck;
      SameKeySameRecord(records, e, r);
    }
    if r.key in Victims(p, order[..n]) {
      var x :| x in order[..n] && x.key.key == r.key && !IsSpared(p, x.key);
      assert x in order;
      SameKeySameRecord(records, x.key, r);
    }
  }

  /** The two passes together give the guarantee. */
  lemma PassesCollect(p: Policy, records: seq<Record>, before: Files, after: Files, order: seq<Timed<Record>>, n: nat)
    requires Lists(records, before) && n <= |order|
    requires Oldest(order, records, before - ExpiredKeys(p, records))
    requires after == before - ExpiredKeys(p, records) - Victims(p, order[..n])
    requires Total(records, after.Keys) <= p.maxTotalBytes || n == |order|
    requires Victims(p, order[..n]) != {} ==>
               exists x :: x in order && x.key.key in Victims(p, order[..n])
                           && Total(records, after.Keys) + x.key.size > p.maxTotalBytes
    ensures Collected(p, records, after)
  {
    var middle, victims := before - ExpiredKeys(p, records), Victims(p, order[..n]);
    forall r | r in records
      ensures r.key in before
      ensures r.key in ExpiredKeys(p, records) <==> IsExpired(p, r) && r.key !in p.stuck
      ensures r.key in victims ==> !IsSpared(p, r) && r.key !in ExpiredKeys(p, records)
    {
      DeletedRecords(p, records, before, order, n, r);
    }
    forall v, w | v in records && w in records && v.key in victims && w.key in after && !IsSpared(p, w)
      ensures n < |order| && v.mtimeMs <= w.mtimeMs
    {
      VictimsAreOldest(order, records, middle, n, p, v, w);
    }
    if n == |order| {
      WholePrefix(order, n);
      forall r | r in records && r.key in after ensures IsSpared(p, r) {
        assert Timed(r, r.mtimeMs) in order;
      }
    }
  }

  /** The order of the second pass: what the first leaves, oldest first. */
  function SecondOrder(p: Policy, records: seq<Record>): seq<Timed<Record>> {
    SortByTime(Remaining(records, ExpiredKeys(p, records)))
  }

  /** The total that the second pass begins with. */
  function FirstTotal(p: Policy, records: seq<Record>, files: Files): nat {
    Total(records, files.Keys - ExpiredKeys(p, records))
  }

  lemma AfterFirstPass(files: Files, memory: map<TaskId, OutputEntry>, p: Policy, records: seq<Record>)
    requires Lists(records, files)
    ensures
      var first := FirstPass(Begun(files, memory, records), p, records);
      && first.files == files - ExpiredKeys(p, records) && InStep(first, records, files, memory)
      && first.tally.keptFiles == SpareCount(p, records) && first.tally.totalBytes == FirstTotal(p, records, files)
      && Cleaned(files, memory, p, records) == SecondPass(first, p, SecondOrder(p, records))
      && Oldest(SecondOrder(p, records), records, first.files)
  {
    var begun := Begun(files, memory, records);
    FirstPassDeletes(begun, p, records);
    BegunInStep(files, memory, records);
    FirstPassInStep(begun, p, records, records, files, memory);
    assert ExpiredKeys(p, records) <= RecordKeys(records);
    assert (files - ExpiredKeys(p, records)).Keys == files.Keys - ExpiredKeys(p, records);
    assert files.Keys - (files.Keys - ExpiredKeys(p, records)) == ExpiredKeys(p, records);
    OrderIsOldest(records, ExpiredKeys(p, records), files - ExpiredKeys(p, records));
  }

  /** A clean-up keeps its guarantee, its counters are right, and it counts as kept exactly what it meets. */
  lemma CleanedKeeps(files: Files, memory: map<TaskId, OutputEntry>, p: Policy, records: seq<Record>)
    requires Lists(records, files)
    ensures
      var r := Cleaned(files, memory, p, records);
      && InStep(r, records, files, memory) && Collected(p, records, r.files)
      && r.tally.keptFiles ==
         SpareCount(p, records) + MetOverBudget(p, SecondOrder(p, records), FirstTotal(p, records, files))
  {
    AfterFirstPass(files, memory, p, records);
    var first, order := FirstPass(Begun(files, memory, records), p, records), SecondOrder(p, records);
    OldestIsPresent(order, records, first.files);
    SecondPassInStep(first, p, order, records, files, memory);
    SecondPassDeletes(first, p, order);
    LastVictimWasNeeded(first, p, order);
    SecondPassCounts(first, p, order);
    PassesCollect(p, records, files, Cleaned(files, memory, p, records).files, order, Visited(first, p, order));
  }

  // ---- When a sheltered file is counted twice

  /** What a pass over `order` frees if nothing stops it. */
  function Freed(p: Policy, order: seq<Timed<Record>>): nat {
    if order == [] then 0 else (if IsSpared(p, order[0].key) then 0 else order[0].key.size) + Freed(p, order[1..])
  }

  /** No sheltered file comes up before the budget is reached. */
  ghost predicate BudgetFirst(p: Policy, order: seq<Timed<Record>>, total: int) {
    forall i: nat :: i < |order| && IsSheltered(p, order[i].key) ==> total - Freed(p, order[..i]) <= p.maxTotalBytes
  }

  lemma FreedHead(p: Policy, order: seq<Timed<Record>>, i: nat)
    requires 0 < i <= |order|
    ensures Freed(p, order[..i]) ==
            (if IsSpared(p, order[0].key) then 0 else order[0].key.size) + Freed(p, order[1..][..i - 1])
  {
    assert order[..i][1..] == order[1..][..i - 1];
  }

  lemma BudgetFirstTail(p: Policy, order: seq<Timed<Record>>, total: int)
    requires order != [] && !IsSheltered(p, order[0].key)
    ensures
      var left := if order[0].key.key in p.stuck then total else total - order[0].key.size;
      BudgetFirst(p, order, total) <==> BudgetFirst(p, order[1..], left)
  {
    var rest, left := order[1..], if order[0].key.key in p.stuck then total else total - order[0].key.size;
    if BudgetFirst(p, order, total) {
      forall i: nat | i < |rest| && IsSheltered(p, rest[i].key) ensures left - Freed(p, rest[..i]) <= p.maxTotalBytes {
        FreedHead(p, order, i + 1);
        assert IsSheltered(p, order[i + 1].key);
      }
    }
    if BudgetFirst(p, rest, left) {
      forall i: nat | i < |order| && IsSheltered(p, order[i].key) ensures total - Freed(p, order[..i]) <= p.maxTotalBytes {
        FreedHead(p, order, i);
        assert IsSheltered(p, rest[i - 1].key);
      }
    }
  }

  lemma {:induction false} MetNoneIff(p: Policy, order: seq<Timed<Record>>, total: int)
    ensures MetOverBudget(p, order, total) == 0 <==> BudgetFirst(p, order, total)
    decreases |order|
  {
    if order != [] && total > p.maxTotalBytes {
      if IsSheltered(p, order[0].key) {
        assert Freed(p, order[..0]) == 0;
        assert !BudgetFirst(p, order, total);
      } else {
        BudgetFirstTail(p, order, total);
        MetNoneIff(p, order[1..], if order[0].key.key in p.stuck then total else total - order[0].key.size);
      }
    }
  }

  /**
   The number of kept files is that of the sheltered ones exactly when the first pass already meets the budget, or
   the second meets it before it comes upon a sheltered file.
   */
  lemma KeptOnceIff(files: Files, memory: map<TaskId, OutputEntry>, p: Policy, records: seq<Record>)
    requires Lists(records, files)
    ensures
      var total := FirstTotal(p, records, files);
      Cleaned(files, memory, p, records).tally.keptFiles == SpareCount(p, records) <==>
      total <= p.maxTotalBytes || BudgetFirst(p, SecondOrder(p, records), total)
  {
    CleanedKeeps(files, memory, p, records);
    MetNoneIff(p, SecondOrder(p, records), FirstTotal(p, records, files));
  }

  const OLD_FILE: Record := Record(FileKey(1, Stdout), 1, 0)
  const NEW_FILE: Record := Record(FileKey(2, Stdout), 1, 5)
  const TWO_FILES: Files := map[OLD_FILE.key := OutputFile([0], 0), NEW_FILE.key := OutputFile([0], 5)]
  const TIGHT: Policy := Policy({1}, {}, 100, 1, 10)

  lemma TwoInOrder()
    ensures Lists([OLD_FILE, NEW_FILE], TWO_FILES) && ExpiredKeys(TIGHT, [OLD_FILE, NEW_FILE]) == {}
    ensures SecondOrder(TIGHT, [OLD_FILE, NEW_FILE]) == BY_AGE
  {
    var records, none: set<FileKey> := [OLD_FILE, NEW_FILE], {};
    assert records[0] == OLD_FILE && records[1] == NEW_FILE;
    assert RecordKeys(records) == {OLD_FILE.key, NEW_FILE.key} == TWO_FILES.Keys;
    assert forall r <- records :: r == OLD_FILE || r == NEW_FILE;
    assert ExpiredKeys(TIGHT, records) == none;
    var aged, young := Timed(OLD_FILE, 0), Timed(NEW_FILE, 5);
    assert records[1..] == [NEW_FILE] && [NEW_FILE][1..] == [];
    assert Remaining([NEW_FILE], none) == [young] + Remaining([], none) == [young];
    assert Remaining(records, none) == [aged] + [young] == [aged, young];
    assert [aged, young][1..] == [young] && [young][1..] == [];
    assert SortByTime([young]) == Insert(young, SortByTime([])) == [young];
    assert SortByTime([aged, young]) == Insert(aged, [young]) == [aged] + [young];
  }

  const BY_AGE: seq<Timed<Record>> := [Timed(OLD_FILE, 0), Timed(NEW_FILE, 5)]

  lemma TwoCounts()
    ensures SpareCount(TIGHT, [OLD_FILE, NEW_FILE]) == 1
    ensures Total([OLD_FILE, NEW_FILE], TWO_FILES.Keys) == 2
  {
    var records := [OLD_FILE, NEW_FILE];
    assert records[1..] == [NEW_FILE] && [NEW_FILE][1..] == [];
    assert SpareCount(TIGHT, [NEW_FILE]) == SpareCount(TIGHT, []) == 0;
    assert Total([NEW_FILE], TWO_FILES.Keys) == 1 + Total([], TWO_FILES.Keys);
  }

  lemma OneMet()
    ensures MetOverBudget(TIGHT, BY_AGE, 2) == 1
  {
    assert BY_AGE[1..] == [Timed(NEW_FILE, 5)] && [Timed(NEW_FILE, 5)][1..] == [];
    assert MetOverBudget(TIGHT, [Timed(NEW_FILE, 5)], 2) == MetOverBudget(TIGHT, [], 1) == 0;
  }

  /** Of two files in that order, over the budget by one byte, the second goes. */
  lemma SecondGoes(w: Sweep)
    requires w.files == TWO_FILES && w.tally.totalBytes == 2
    ensures SecondPass(w, TIGHT, BY_AGE).files == TWO_FILES - {NEW_FILE.key}
  {
    var rest, met := [Timed(NEW_FILE, 5)], Kept(w);
    assert BY_AGE[1..] == rest && rest[1..] == [];
    assert SecondPass(w, TIGHT, BY_AGE) == SecondPass(met, TIGHT, rest);
    assert SecondPass(met, TIGHT, rest) == SecondPass(Unlinked(met, TIGHT, NEW_FILE), TIGHT, []);
  }

  /** Two files of one byte, a budget of one byte, the older file sheltered: it is counted twice, and is all that is left. */
  lemma CountedTwice()
    ensures
      var r := Cleaned(TWO_FILES, map[], TIGHT, [OLD_FILE, NEW_FILE]);
      r.files.Keys == {OLD_FILE.key} && r.tally.keptFiles == 2
  {
    TwoInOrder();
    TwoCounts();
    OneMet();
    assert TWO_FILES.Keys - {} == TWO_FILES.Keys && TWO_FILES - {} == TWO_FILES;
    CleanedKeeps(TWO_FILES, map[], TIGHT, [OLD_FILE, NEW_FILE]);
    AfterFirstPass(TWO_FILES, map[], TIGHT, [OLD_FILE, NEW_FILE]);
    SecondGoes(FirstPass(Begun(TWO_FILES, map[], [OLD_FILE, NEW_FILE]), TIGHT, [OLD_FILE, NEW_FILE]));
  }
}
