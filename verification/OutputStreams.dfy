/**
 Task output (src/scheduler/output-store.ts): a rolling tail in memory, a
 coalescing queue and a capped file for each stream. What a reader is given
 does not depend on when the queue was flushed.
 */
module OutputStreams {
  import opened Base
  import opened Framing

  const OUTPUT_TAIL_LIMIT: nat := 64 * 1024
  const DEFAULT_OUTPUT_RETURN_LIMIT: nat := 16 * 1024

  function Last(s: Bytes, n: nat): Bytes {
    if |s| <= n then s else s[|s| - n..]
  }

  function First(s: Bytes, n: nat): Bytes {
    if |s| <= n then s else s[..n]
  }

  function AppendTail(current: Bytes, data: Bytes): Bytes {
    if |data| == 0 then current
    else
      var next := if |current| == 0 then data else current + data;
      if |next| <= OUTPUT_TAIL_LIMIT then next else next[|next| - OUTPUT_TAIL_LIMIT..]
  }

  /** One stream of one task: the tail and the count in memory, the queue, and the file. */
  datatype StreamState = StreamState(tail: Bytes, bytes: nat, queue: seq<Bytes>, file: Bytes)

  const NEW_STREAM: StreamState := StreamState([], 0, [], [])

  function Appended(s: StreamState, data: Bytes): StreamState {
    s.(tail := AppendTail(s.tail, data), bytes := s.bytes + |data|, queue := s.queue + [data])
  }

  /** The queue goes to the file as far as the cap allows; the rest is dropped. */
  function WithQueue(file: Bytes, queue: seq<Bytes>, cap: nat): Bytes {
    if cap <= |file| then file else file + First(Joined(queue), cap - |file|)
  }

  function Flushed(s: StreamState, cap: nat): StreamState {
    s.(queue := [], file := WithQueue(s.file, s.queue, cap))
  }

  datatype Action = Append(data: Bytes) | Flush

  function Run(s: StreamState, actions: seq<Action>, cap: nat): StreamState
    decreases |actions|
  {
    if actions == [] then s
    else
      Run(match actions[0] case Append(data) => Appended(s, data) case Flush => Flushed(s, cap), actions[1..], cap)
  }

  /** Everything appended, in order. */
  function Text(actions: seq<Action>): Bytes {
    if actions == [] then []
    else (match actions[0] case Append(data) => data case Flush => []) + Text(actions[1..])
  }

  /** The state belongs to the logical stream `text`. */
  predicate Holds(s: StreamState, text: Bytes, cap: nat) {
    && s.tail == Last(text, OUTPUT_TAIL_LIMIT) && s.bytes == |text|
    && |Joined(s.queue)| <= |text|
    && text[|text| - |Joined(s.queue)|..] == Joined(s.queue)
    && s.file == First(text[..|text| - |Joined(s.queue)|], cap)
  }

  /** The rolling tail is the end of the whole stream. */
  lemma TailRolls(text: Bytes, data: Bytes)
    ensures AppendTail(Last(text, OUTPUT_TAIL_LIMIT), data) == Last(text + data, OUTPUT_TAIL_LIMIT)
  {
    var cur := Last(text, OUTPUT_TAIL_LIMIT);
    assert text == text[..|text| - |cur|] + cur;
    if data == [] {
      assert text + data == text;
    } else if |cur| == 0 {
      assert text == [] && text + data == data;
    } else if |cur + data| > OUTPUT_TAIL_LIMIT {
      var whole := text + data;
      assert whole == text[..|text| - |cur|] + (cur + data);
      assert whole[|whole| - OUTPUT_TAIL_LIMIT..] == (cur + data)[|cur + data| - OUTPUT_TAIL_LIMIT..];
    }
  }

  lemma AppendHolds(s: StreamState, text: Bytes, data: Bytes, cap: nat)
    requires Holds(s, text, cap)
    ensures Holds(Appended(s, data), text + data, cap)
  {
    TailRolls(text, data);
    JoinedConcat(s.queue, [data]);
    JoinedOne(data);
    var q := Joined(s.queue);
    assert (text + data)[..|text| - |q|] == text[..|text| - |q|];
    assert (text + data)[|text| - |q|..] == q + data;
  }

  lemma FlushHolds(s: StreamState, text: Bytes, cap: nat)
    requires Holds(s, text, cap)
    ensures Holds(Flushed(s, cap), text, cap)
    ensures Flushed(s, cap).file == First(text, cap)
  {
    var written := text[..|text| - |Joined(s.queue)|];
    assert text == written + Joined(s.queue);
    assert text[..|text|] == text;
    if cap <= |s.file| {
      assert First(text, cap) == text[..cap] == written[..cap];
    } else {
      assert s.file == written;
      assert |text| > cap ==> text[..cap] == written + Joined(s.queue)[..cap - |written|];
    }
  }

  lemma {:induction false} RunHolds(s: StreamState, text: Bytes, actions: seq<Action>, cap: nat)
    requires Holds(s, text, cap)
    ensures Holds(Run(s, actions, cap), text + Text(actions), cap)
    decreases |actions|
  {
    if actions == [] {
      assert text + Text(actions) == text;
    } else {
      match actions[0]
      case Append(data) =>
        AppendHolds(s, text, data, cap);
        RunHolds(Appended(s, data), text + data, actions[1..], cap);
        assert text + data + Text(actions[1..]) == text + Text(actions);
      case Flush =>
        FlushHolds(s, text, cap);
        RunHolds(Flushed(s, cap), text, actions[1..], cap);
        assert text + ([] + Text(actions[1..])) == text + Text(actions[1..]);
    }
  }

  /**
   For a fresh stream and any interleaving of appends and flushes: the tail is the last 64 KiB of the stream,
   the counter its length, the file after one more flush its prefix up to the cap.
   */
  lemma FlushTimingIsInvisible(actions: seq<Action>, cap: nat)
    ensures
      var s, text := Run(NEW_STREAM, actions, cap), Text(actions);
      && s.tail == Last(text, OUTPUT_TAIL_LIMIT) && s.bytes == |text|
      && Flushed(s, cap).file == First(text, cap)
  {
    assert Holds(NEW_STREAM, [], cap);
    RunHolds(NEW_STREAM, [], actions, cap);
    assert [] + Text(actions) == Text(actions);
    FlushHolds(Run(NEW_STREAM, actions, cap), Text(actions), cap);
  }

  // ---- What a reader is given of one stream

  datatype Reading = Reading(text: Bytes, bytes: nat, truncated: bool, fileTruncated: bool)

  /** A full read of the flushed state: the file, and whether it is all there was. */
  function FullReading(s: StreamState, cap: nat): Reading {
    var file := Flushed(s, cap).file;
    Reading(file, s.bytes, s.bytes > |file| || s.bytes > cap, s.bytes > cap)
  }

  function TailReading(s: StreamState, cap: nat, limit: nat): Reading {
    Reading(
      Last(s.tail, limit), s.bytes,
      s.bytes > |s.tail| || s.bytes > cap || |s.tail| > limit, s.bytes > cap)
  }

  /** A full read gives the stream up to the cap, and reports truncation exactly when the stream is longer. */
  lemma FullReadingTells(s: StreamState, text: Bytes, cap: nat)
    requires Holds(s, text, cap)
    ensures FullReading(s, cap) == Reading(First(text, cap), |text|, |text| > cap, |text| > cap)
  {
    FlushHolds(s, text, cap);
  }

  /** A tail read gives the end of the stream, and reports truncation when something is missing from it or the file. */
  lemma TailReadingTells(s: StreamState, text: Bytes, cap: nat, limit: nat)
    requires Holds(s, text, cap)
    ensures
      var reach := if limit < OUTPUT_TAIL_LIMIT then limit else OUTPUT_TAIL_LIMIT;
      TailReading(s, cap, limit) == Reading(Last(text, reach), |text|, |text| > reach || |text| > cap, |text| > cap)
  {
    var reach := if limit < OUTPUT_TAIL_LIMIT then limit else OUTPUT_TAIL_LIMIT;
    assert Last(Last(text, OUTPUT_TAIL_LIMIT), limit) == Last(text, reach);
  }

  // ---- What memory holds of a task

  datatype Counted = Counted(tail: Bytes, bytes: nat)
  datatype OutputEntry = OutputEntry(stdout: Counted, stderr: Counted)
}
