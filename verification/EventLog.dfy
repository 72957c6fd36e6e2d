/**
 The event log (src/scheduler/event-log.ts): buffered appends to numbered files,
 and the backwards chunked read that must agree with reading the whole file.
 */
module EventTexts {
  import opened Base
  import opened Framing

  datatype Event = Event(id: Name, hostId: Option<HostId>)

  /** The pieces of a text between its newlines, the last one included. */
  function Pieces(data: Bytes): seq<Bytes> {
    Lines(data) + [Remainder(data)]
  }

  predicate Wanted(event: Event, host: Option<HostId>) {
    host == None || event.hostId == host
  }

  function Matching(events: seq<Event>, host: Option<HostId>): seq<Event> {
    if events == [] then []
    else (if Wanted(events[0], host) then [events[0]] else []) + Matching(events[1..], host)
  }

  /** The events of a text, oldest first; blank and malformed lines give none. */
  function EventsIn(data: Bytes, host: Option<HostId>, decode: Decoder<Event>): seq<Event> {
    Matching(Decoded(Pieces(data), decode), host)
  }

  function Reversed<T>(s: seq<T>): (r: seq<T>)
    ensures |r| == |s| && forall k :: 0 <= k < |s| ==> r[k] == s[|s| - 1 - k]
  {
    if s == [] then [] else Reversed(s[1..]) + [s[0]]
  }

  /** The last `limit` events, newest first. */
  function Newest(events: seq<Event>, limit: nat): seq<Event> {
    Reversed(if |events| > limit then events[|events| - limit..] else events)
  }

  lemma {:induction false} MatchingConcat(a: seq<Event>, b: seq<Event>, host: Option<HostId>)
    ensures Matching(a + b, host) == Matching(a, host) + Matching(b, host)
  {
    if a == [] {
      assert a + b == b;
    } else {
      var first := if Wanted(a[0], host) then [a[0]] else [];
      MatchingConcat(a[1..], b, host);
      assert (a + b)[1..] == a[1..] + b;
      assert Matching(a + b, host) == first + (Matching(a[1..], host) + Matching(b, host));
      assert Matching(a, host) == first + Matching(a[1..], host);
    }
  }

  /** Of the events of a text, in their order, a reader is given those of the host asked for, or all if none is. */
  lemma {:induction false} MatchingTells(events: seq<Event>, host: Option<HostId>, e: Event)
    ensures multiset(Matching(events, host))[e] == if host == None || e.hostId == host then multiset(events)[e] else 0
  {
    if events != [] {
      var rest := Matching(events[1..], host);
      MatchingTells(events[1..], host, e);
      assert multiset(events) == multiset{events[0]} + multiset(events[1..]) by {
        assert events == [events[0]] + events[1..];
      }
      assert multiset([events[0]] + rest) == multiset{events[0]} + multiset(rest);
      assert [] + rest == rest;
    }
  }

  /** One event more stays where it is, if it is of the host. */
  lemma MatchingOneByOne(before: seq<Event>, e: Event, after: seq<Event>, host: Option<HostId>)
    ensures Matching(before + [e] + after, host) ==
            Matching(before, host) + (if host == None || e.hostId == host then [e] else []) + Matching(after, host)
  {
    MatchingConcat(before + [e], after, host);
    MatchingConcat(before, [e], host);
    assert Matching([e], host) == (if Wanted(e, host) then [e] else []) + Matching([], host);
  }

  /** The newest events are the last ones of the text, the last of all first. */
  lemma NewestTells(events: seq<Event>, limit: nat)
    ensures
      var newest := Newest(events, limit);
      && |newest| == (if |events| < limit then |events| else limit)
      && forall k :: 0 <= k < |newest| ==> newest[k] == events[|events| - 1 - k]
  {
  }

  /** An empty text has one blank piece, and no event. */
  lemma NothingInBlank(host: Option<HostId>, decode: Decoder<Event>)
    requires decode([]) == None
    ensures Pieces([]) == [[]] && Decoded([[]], decode) == [] && EventsIn([], host, decode) == []
  {
    var blank: seq<Bytes> := [[]];
    assert blank[1..] == [];
  }

  lemma CutRemainder(a: Bytes, b: Bytes)
    ensures Lines(Remainder(a) + ([NEWLINE] + b)) == [Remainder(a)] + Lines(b)
    ensures Remainder(Remainder(a) + ([NEWLINE] + b)) == Remainder(b)
  {
    SplitFirst(Remainder(a), b);
    assert Remainder(a) + ([NEWLINE] + b) == Remainder(a) + [NEWLINE] + b;
  }

  /** A newline cuts a text in two that do not touch each other's pieces. */
  lemma PiecesAtNewline(a: Bytes, b: Bytes)
    ensures Pieces(a + [NEWLINE] + b) == Pieces(a) + Pieces(b)
  {
    SplitConcat(a, [NEWLINE] + b);
    CutRemainder(a, b);
    assert a + [NEWLINE] + b == a + ([NEWLINE] + b);
    assert Lines(a) + ([Remainder(a)] + Lines(b)) == Pieces(a) + Lines(b);
  }

  lemma EventsAfterNewline(text: Bytes, host: Option<HostId>, decode: Decoder<Event>)
    requires decode([]) == None
    ensures EventsIn([NEWLINE] + text, host, decode) == EventsIn(text, host, decode)
  {
    PiecesAtNewline([], text);
    assert [] + [NEWLINE] + text == [NEWLINE] + text;
    NothingInBlank(host, decode);
    assert Decoded([[]] + Pieces(text), decode) == Decoded(Pieces(text), decode) by {
      assert ([[]] + Pieces(text))[1..] == Pieces(text);
    }
  }

  /** The events of a file are those before a newline followed by those after it. */
  lemma EventsAtNewline(before: Bytes, tail: Bytes, host: Option<HostId>, decode: Decoder<Event>)
    requires tail != [] && tail[0] == NEWLINE && decode([]) == None
    ensures EventsIn(before + tail, host, decode) == EventsIn(before, host, decode) + EventsIn(tail, host, decode)
  {
    var rest := tail[1..];
    assert before + tail == before + [NEWLINE] + rest && tail == [NEWLINE] + rest;
    PiecesAtNewline(before, rest);
    EventsAfterNewline(rest, host, decode);
    DecodedConcat(Pieces(before), Pieces(rest), decode);
    MatchingConcat(Decoded(Pieces(before), decode), Decoded(Pieces(rest), decode), host);
  }

  lemma EventInLine(json: Bytes, event: Event, host: Option<HostId>, decode: Decoder<Event>)
    requires NEWLINE !in json && decode(json) == Some(event) && decode([]) == None && Wanted(event, host)
    ensures EventsIn(json + [NEWLINE], host, decode) == [event]
  {
    var line := json + [NEWLINE];
    SplitFirst(json, []);
    assert line == json + [NEWLINE] + [];
    assert Pieces(line) == [json, []];
    NothingInBlank(host, decode);
    assert [json, []][1..] == [[]];
    assert Decoded([json, []], decode) == [event];
    assert [event][1..] == [];
  }

  /** A line written behind complete lines adds its event at the end. */
  lemma LoggedLast(content: Bytes, json: Bytes, event: Event, host: Option<HostId>, decode: Decoder<Event>)
    requires content == [] || content[|content| - 1] == NEWLINE
    requires NEWLINE !in json && decode(json) == Some(event) && decode([]) == None && Wanted(event, host)
    ensures EventsIn(content + (json + [NEWLINE]), host, decode) == EventsIn(content, host, decode) + [event]
  {
    var line := json + [NEWLINE];
    EventInLine(json, event, host, decode);
    NothingInBlank(host, decode);
    if content == [] {
      assert content + line == line;
      assert [] + [event] == [event];
    } else {
      var full := content[..|content| - 1];
      var tail := [NEWLINE] + line;
      assert content + line == full + tail && content == full + [NEWLINE];
      EventsAtNewline(full, tail, host, decode);
      EventsAtNewline(full, [NEWLINE], host, decode);
      EventsAfterNewline(line, host, decode);
      EventsAfterNewline([], host, decode);
      assert [NEWLINE] + [] == [NEWLINE];
      assert EventsIn(full, host, decode) + [] == EventsIn(full, host, decode);
    }
  }

  lemma ReversedConcat<T>(a: seq<T>, b: seq<T>)
    ensures Reversed(a + b) == Reversed(b) + Reversed(a)
  {
  }

  /** Enough events at the end are the newest of all. */
  lemma EnoughAtEnd(older: seq<Event>, newer: seq<Event>, limit: nat)
    requires |newer| >= limit
    ensures Newest(older + newer, limit) == Newest(newer, limit)
  {
    var all := older + newer;
    assert all[|all| - limit..] == newer[|newer| - limit..];
    assert |newer| == limit ==> newer[0..] == newer;
  }
}

module EventLogs {
  import opened Base
  import opened Framing
  import opened EventTexts

  const TAIL_CHUNK: nat := 64 * 1024
  const MAX_CHUNKS: nat := 16
  const MAX_EVENTS_PER_FILE: nat := 1000

  datatype FileName = FileName(date: Name, seqNo: nat)

  datatype LogState = LogState(
    disk: map<FileName, Bytes>, date: Name, file: FileName, eventCount: nat, buffer: seq<Bytes>)

  function Stored(disk: map<FileName, Bytes>, name: FileName): Bytes {
    if name in disk then disk[name] else []
  }

  predicate EndsLine(text: Bytes) {
    text == [] || text[|text| - 1] == NEWLINE
  }

  /** What a reader that flushes first is given to read. */
  function ReadText(l: LogState, writes: bool, today: Name): Bytes {
    if !writes || l.buffer == [] then Stored(l.disk, l.file)
    else if l.eventCount + |l.buffer| < MAX_EVENTS_PER_FILE then Stored(l.disk, l.file) + Joined(l.buffer)
    else if today == l.date then []
    else Stored(l.disk, FileName(today, 0))
  }

  lemma JoinedEndsLine(text: Bytes, lines: seq<Bytes>)
    requires EndsLine(text) && forall line <- lines :: EndsLine(line)
    ensures EndsLine(text + Joined(lines))
    decreases |lines|
  {
    if lines == [] {
      assert text + Joined(lines) == text;
    } else {
      assert lines[0] in lines;
      JoinedEndsLine(text + lines[0], lines[1..]);
      assert text + Joined(lines) == text + lines[0] + Joined(lines[1..]);
    }
  }

  /**
   Whether a reader sees the event logged last: exactly if the flush before the read succeeds and does not fill the
   file. Then it is the newest of all; with the file full, a reader of the same day is given nothing whatever.
   */
  lemma LoggedIsSeenIff(
    l: LogState, json: Bytes, event: Event, limit: nat, host: Option<HostId>, decode: Decoder<Event>,
    writes: bool, today: Name)
    requires limit > 0 && decode([]) == None && decode(json) == Some(event) && NEWLINE !in json && Wanted(event, host)
    requires EndsLine(Stored(l.disk, l.file)) && forall line <- l.buffer :: EndsLine(line)
    requires forall name :: event !in EventsIn(Stored(l.disk, name), host, decode)
    ensures var logged := l.(buffer := l.buffer + [json + [NEWLINE]]);
            var events := Newest(EventsIn(ReadText(logged, writes, today), host, decode), limit);
            var room := l.eventCount + |l.buffer| + 1 < MAX_EVENTS_PER_FILE;
            && (event in events <==> writes && room)
            && (writes && room ==> events[0] == event)
            && (writes && !room && today == l.date ==> events == [])
  {
    var line := json + [NEWLINE];
    var text := Stored(l.disk, l.file);
    NothingInBlank(host, decode);
    JoinedConcat(l.buffer, [line]);
    JoinedOne(line);
    assert text + Joined(l.buffer + [line]) == text + Joined(l.buffer) + line;
    JoinedEndsLine(text, l.buffer);
    LoggedLast(text + Joined(l.buffer), json, event, host, decode);
    NewestHasLast(EventsIn(text + Joined(l.buffer), host, decode), event, limit);
    forall name ensures event !in Newest(EventsIn(Stored(l.disk, name), host, decode), limit) {
      NewestAreThere(EventsIn(Stored(l.disk, name), host, decode), limit);
    }
  }

  lemma NewestHasLast(events: seq<Event>, event: Event, limit: nat)
    requires limit > 0
    ensures Newest(events + [event], limit) != [] && Newest(events + [event], limit)[0] == event
  {
  }

  lemma NewestAreThere(events: seq<Event>, limit: nat)
    ensures forall e <- Newest(events, limit) :: e in events
  {
    var last := if |events| > limit then events[|events| - limit..] else events;
    forall e <- Newest(events, limit) ensures e in last {
      var k :| 0 <= k < |Reversed(last)| && Reversed(last)[k] == e;
    }
  }

  /** The lines of `text` from the last one back, until `limit` events are found. */
  method CollectEvents(text: Bytes, limit: nat, host: Option<HostId>, decode: Decoder<Event>) returns (events: seq<Event>)
    requires limit > 0
    ensures events == Newest(EventsIn(text, host, decode), limit)
  {
    var lines := Pieces(text);
    events := [];
    var i := |lines|;
    assert lines[i..] == [];
    while i > 0
      invariant 0 <= i <= |lines| && |events| < limit
      invariant events == Reversed(Matching(Decoded(lines[i..], decode), host))
    {
      i := i - 1;
      OneMoreLine(lines, i, host, decode);
      match decode(lines[i])
      case None =>
      case Some(event) =>
        if host == None || event.hostId == host {
          events := events + [event];
          if |events| >= limit {
            FoundEnough(lines, i, limit, host, decode);
            return;
          }
        }
    }
    assert lines[0..] == lines;
  }

  lemma OneMoreLine(lines: seq<Bytes>, i: nat, host: Option<HostId>, decode: Decoder<Event>)
    requires i < |lines|
    ensures Reversed(Matching(Decoded(lines[i..], decode), host)) ==
            Reversed(Matching(Decoded(lines[i + 1..], decode), host)) +
            match decode(lines[i]) case None => [] case Some(event) => if Wanted(event, host) then [event] else []
  {
    assert lines[i..][1..] == lines[i + 1..];
    var later := Decoded(lines[i + 1..], decode);
    match decode(lines[i])
    case None =>
      assert Decoded(lines[i..], decode) == later;
    case Some(event) =>
      assert Decoded(lines[i..], decode) == [event] + later;
      assert ([event] + later)[1..] == later;
      ReversedConcat(if Wanted(event, host) then [event] else [], Matching(later, host));
  }

  /** The last lines hold `limit` events: these are the newest of all. */
  lemma FoundEnough(lines: seq<Bytes>, i: nat, limit: nat, host: Option<HostId>, decode: Decoder<Event>)
    requires i <= |lines| && |Matching(Decoded(lines[i..], decode), host)| == limit
    ensures Reversed(Matching(Decoded(lines[i..], decode), host)) == Newest(Matching(Decoded(lines, decode), host), limit)
  {
    AllLines(lines, i, host, decode);
    EnoughAtEnd(Matching(Decoded(lines[..i], decode), host), Matching(Decoded(lines[i..], decode), host), limit);
  }

  lemma AllLines(lines: seq<Bytes>, i: nat, host: Option<HostId>, decode: Decoder<Event>)
    requires i <= |lines|
    ensures Matching(Decoded(lines, decode), host) ==
            Matching(Decoded(lines[..i], decode), host) + Matching(Decoded(lines[i..], decode), host)
  {
    assert lines == lines[..i] + lines[i..];
    DecodedConcat(lines[..i], lines[i..], decode);
    MatchingConcat(Decoded(lines[..i], decode), Decoded(lines[i..], decode), host);
  }

  /**
   Reads a file backwards, one chunk more each time, until the text begins at a newline and holds enough
   events, the file is exhausted, or the chunks are used up; whichever it is, the result is that of a full read.
   */
  method ReadBackwards(file: Bytes, limit: nat, host: Option<HostId>, decode: Decoder<Event>, tailChunk: nat, maxChunks: nat)
    returns (events: seq<Event>)
    requires limit > 0 && tailChunk > 0 && decode([]) == None
    ensures events == Newest(EventsIn(file, host, decode), limit)
  {
    var fileSize := |file|;
    if fileSize == 0 {
      NothingInBlank(host, decode);
      return [];
    }
    var offset := fileSize;
    var buffer: Bytes := [];
    var chunkIdx := 0;
    while chunkIdx < maxChunks
      invariant 0 <= offset <= fileSize && buffer == file[offset..]
      decreases maxChunks - chunkIdx
    {
      chunkIdx := chunkIdx + 1;
      var want := if tailChunk < offset then tailChunk else offset;
      if want <= 0 {
        break;
      }
      assert file[offset - want..] == file[offset - want..offset] + file[offset..];
      buffer := file[offset - want..offset] + buffer;
      offset := offset - want;
      if buffer[0] != NEWLINE && offset > 0 {
        continue;
      }
      var found := CollectEvents(buffer, limit, host, decode);
      assert file == file[..offset] + buffer;
      if |found| >= limit {
        if offset > 0 {
          EventsAtNewline(file[..offset], buffer, host, decode);
          EnoughAtEnd(EventsIn(file[..offset], host, decode), EventsIn(buffer, host, decode), limit);
        }
        return found;
      }
      if offset == 0 {
        return found;
      }
    }
    events := CollectEvents(file, limit, host, decode);
  }

  /** A line on disk, and the file it went to. */
  datatype Entry = Entry(file: FileName, line: Bytes)

  function LinesIn(entries: seq<Entry>): (lines: seq<Bytes>)
    ensures |lines| == |entries| && forall i :: 0 <= i < |entries| ==> lines[i] == entries[i].line
  {
    seq(|entries|, i requires 0 <= i < |entries| => entries[i].line)
  }

  function Tagged(lines: seq<Bytes>, file: FileName): (entries: seq<Entry>)
    ensures |entries| == |lines| && forall i :: 0 <= i < |lines| ==> entries[i] == Entry(file, lines[i])
  {
    seq(|lines|, i requires 0 <= i < |lines| => Entry(file, lines[i]))
  }

  /** The lines that went to one file, in the order they were written. */
  function LinesOf(entries: seq<Entry>, file: FileName): seq<Bytes> {
    if entries == [] then []
    else
      var rest := LinesOf(entries[1..], file);
      if entries[0].file == file then [entries[0].line] + rest else rest
  }

  lemma {:induction false} LinesOfConcat(a: seq<Entry>, b: seq<Entry>, file: FileName)
    ensures LinesOf(a + b, file) == LinesOf(a, file) + LinesOf(b, file)
  {
    if a == [] {
      assert a + b == b;
    } else {
      LinesOfConcat(a[1..], b, file);
      assert (a + b)[1..] == a[1..] + b;
    }
  }

  lemma {:induction false} LinesOfTagged(lines: seq<Bytes>, to: FileName, file: FileName)
    ensures LinesOf(Tagged(lines, to), file) == if file == to then lines else []
  {
    if lines != [] {
      LinesOfTagged(lines[1..], to, file);
      assert Tagged(lines, to)[1..] == Tagged(lines[1..], to);
    }
  }

  /** Every file is exactly the lines that went to it. */
  ghost predicate Holds(disk: map<FileName, Bytes>, entries: seq<Entry>) {
    forall name :: Stored(disk, name) == Joined(LinesOf(entries, name))
  }

  lemma WritingHolds(disk: map<FileName, Bytes>, entries: seq<Entry>, to: FileName, batch: seq<Bytes>)
    requires Holds(disk, entries)
    ensures Holds(disk[to := Stored(disk, to) + Joined(batch)], entries + Tagged(batch, to))
    ensures LinesIn(entries + Tagged(batch, to)) == LinesIn(entries) + batch
  {
    var after := disk[to := Stored(disk, to) + Joined(batch)];
    forall name ensures Stored(after, name) == Joined(LinesOf(entries + Tagged(batch, to), name)) {
      LinesOfConcat(entries, Tagged(batch, to), name);
      LinesOfTagged(batch, to, name);
      JoinedConcat(LinesOf(entries, name), LinesOf(Tagged(batch, to), name));
      assert Stored(disk, name) + [] == Stored(disk, name);
    }
  }

  class EventLog {
    var disk: map<FileName, Bytes>
    var currentDate: Name
    var currentFile: FileName
    var eventCount: nat
    var buffer: seq<Bytes>
    var flushTimer: bool
    ghost var logged: seq<Bytes>  // every line logged so far
    ghost var written: seq<Entry> // the lines that have reached the disk, and where they went

    /**
     No logged line is lost or written twice: each has gone to one file or waits in the buffer, in order, and every
     file is exactly the lines that went to it.
     */
    ghost predicate Valid()
      reads this
    {
      && logged == LinesIn(written) + buffer && Holds(disk, written) && currentFile.date == currentDate
      && (forall line <- buffer :: EndsLine(line)) && forall name <- disk :: EndsLine(disk[name])
    }

    function State(): LogState
      reads this
    {
      LogState(disk, currentDate, currentFile, eventCount, buffer)
    }

    function Content(): Bytes
      reads this
    {
      Stored(disk, currentFile)
    }

    constructor (date: Name)
      ensures Valid() && buffer == [] && logged == [] && disk == map[] && eventCount == 0
    {
      disk, currentDate, currentFile, eventCount := map[], date, FileName(date, 0), 0;
      buffer, flushTimer, logged, written := [], false, [], [];
    }

    method Log(json: Bytes)
      requires Valid()
      modifies `buffer, `flushTimer, `logged
      ensures Valid() && flushTimer
      ensures logged == old(logged) + [json + [NEWLINE]] && buffer == old(buffer) + [json + [NEWLINE]]
    {
      var line := json + [NEWLINE];
      buffer := buffer + [line];
      logged := logged + [line];
      flushTimer := true;
    }

    /** Goes on to a file that does not exist yet, or to the new day's first one. */
    method RotateFile(today: Name)
      modifies `currentDate, `currentFile, `eventCount
      ensures eventCount == 0 && currentDate == today && currentFile.date == today
      ensures today != old(currentDate) ==> currentFile.seqNo == 0
      ensures today == old(currentDate) ==>
                && currentFile !in disk && currentFile.seqNo >= 1
                && forall k :: 1 <= k < currentFile.seqNo ==> FileName(today, k) in disk
    {
      if today != currentDate {
        currentDate := today;
        currentFile := FileName(today, 0);
        eventCount := 0;
      } else {
        var seqNo := 1;
        ghost var seen: set<FileName> := {};
        while FileName(today, seqNo) in disk
          invariant seqNo >= 1 && seen <= disk.Keys
          invariant forall k :: 1 <= k < seqNo ==> FileName(today, k) in disk
          invariant forall name <- seen :: name.seqNo < seqNo
          decreases |disk.Keys - seen|
        {
          ghost var name := FileName(today, seqNo);
          assert disk.Keys - (seen + {name}) == (disk.Keys - seen) - {name};
          seen := seen + {name};
          seqNo := seqNo + 1;
        }
        currentFile := FileName(today, seqNo);
        eventCount := 0;
      }
    }

    /** What a flush does: the buffer goes behind the current file, which is left behind once it is full. */
    twostate predicate Flushed(writes: bool, today: Name)
      reads this
    {
      if !writes || old(buffer) == [] then
        && disk == old(disk) && buffer == old(buffer)
        && currentFile == old(currentFile) && eventCount == old(eventCount)
      else
        && buffer == []
        && disk == old(disk)[old(currentFile) := old(Content()) + Joined(old(buffer))]
        && if old(eventCount) + |old(buffer)| < MAX_EVENTS_PER_FILE
           then currentFile == old(currentFile) && eventCount == old(eventCount) + |old(buffer)|
           else
             && eventCount == 0 && currentFile.date == today
             && (today == old(currentDate) ==> currentFile !in disk)
             && (today != old(currentDate) ==> currentFile.seqNo == 0)
    }

    /** Appends the buffer to the current file; when the write fails the buffer stays for the next time. */
    method Flush(writes: bool, today: Name)
      requires Valid()
      modifies `disk, `currentDate, `currentFile, `eventCount, `buffer, `written
      ensures Valid() && Flushed(writes, today)
      ensures written == if writes then old(written) + Tagged(old(buffer), old(currentFile)) else old(written)
    {
      if |buffer| == 0 {
        return;
      }
      var batch := buffer;
      buffer := [];
      if !writes {
        buffer := batch + buffer;
        return;
      }
      JoinedEndsLine(Content(), batch);
      WritingHolds(disk, written, currentFile, batch);
      disk := disk[currentFile := Content() + Joined(batch)];
      written := written + Tagged(batch, currentFile);
      eventCount := eventCount + |batch|;
      if eventCount >= MAX_EVENTS_PER_FILE {
        RotateFile(today);
      }
    }

    method FlushSync(writes: bool, today: Name)
      requires Valid()
      modifies this
      ensures Valid() && Flushed(writes, today) && !flushTimer && logged == old(logged) && old(written) <= written
    {
      flushTimer := false;
      Flush(writes, today);
    }

    /**
     The newest events of the file that is current after a flush: the one written to so far and the buffered lines,
     or, if the flush fills that, the next one of the day, which is not there yet, or the first one of a new day.
     */
    method GetRecent(limit: int, host: Option<HostId>, decode: Decoder<Event>, writes: bool, today: Name)
      returns (events: seq<Event>)
      requires Valid() && decode([]) == None
      modifies this
      ensures Valid() && Flushed(writes, today) && logged == old(logged) && old(written) <= written
      ensures events ==
              if limit <= 0 then [] else Newest(EventsIn(ReadText(old(State()), writes, today), host, decode), limit)
    {
      FlushSync(writes, today);
      NothingInBlank(host, decode);
      assert Content() == ReadText(old(State()), writes, today);
      if limit <= 0 {
        return [];
      }
      if currentFile !in disk {
        return [];
      }
      events := ReadBackwards(disk[currentFile], limit, host, decode, TAIL_CHUNK, MAX_CHUNKS);
    }
  }
}
