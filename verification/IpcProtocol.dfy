/**
 Newline framing (src/ipc-protocol.ts): the simple split of a whole buffer, and
 the incremental parser that refines it over any division into chunks.
 */
module Framing {
  import opened Base

  // What decoding a line yields: a message, or nothing for a blank or malformed line.
  type Decoder<!M> = Bytes -> Option<M>

  /** The lines of a buffer at its newlines, and what follows the last one. */
  function Split(data: Bytes): (r: (seq<Bytes>, Bytes))
    ensures NEWLINE !in r.1
  {
    if data == [] then ([], [])
    else
      var (lines, rest) := Split(data[1..]);
      if data[0] == NEWLINE then ([[]] + lines, rest)
      else if lines == [] then ([], [data[0]] + rest)
      else ([[data[0]] + lines[0]] + lines[1..], rest)
  }

  function Lines(data: Bytes): seq<Bytes> {
    Split(data).0
  }

  function Remainder(data: Bytes): Bytes {
    Split(data).1
  }

  /** The messages of a sequence of lines, in order. */
  function Decoded<M>(lines: seq<Bytes>, decode: Decoder<M>): seq<M> {
    if lines == [] then []
    else (match decode(lines[0]) case Some(m) => [m] case None => []) + Decoded(lines[1..], decode)
  }

  /** The whole-buffer parser. */
  function ParseMessages<M>(data: Bytes, decode: Decoder<M>): (seq<M>, Bytes) {
    (Decoded(Lines(data), decode), Remainder(data))
  }

  lemma SplitPlain(data: Bytes)
    requires NEWLINE !in data
    ensures Split(data) == ([], data)
  {
    if data != [] {
      SplitPlain(data[1..]);
      assert data == [data[0]] + data[1..];
    }
  }

  /** The first line ends at the first newline. */
  lemma {:induction false} SplitFirst(line: Bytes, rest: Bytes)
    requires NEWLINE !in line
    ensures Split(line + [NEWLINE] + rest) == ([line] + Lines(rest), Remainder(rest))
  {
    var data := line + [NEWLINE] + rest;
    if line == [] {
      assert data[1..] == rest;
    } else {
      SplitFirst(line[1..], rest);
      assert data[1..] == line[1..] + [NEWLINE] + rest;
      assert [line[0]] + line[1..] == line;
    }
  }

  /** Splitting `a + b` is splitting `a` and carrying its remainder into `b`. */
  predicate Carries(a: Bytes, b: Bytes) {
    Lines(a + b) == Lines(a) + Lines(Remainder(a) + b) && Remainder(a + b) == Remainder(Remainder(a) + b)
  }

  lemma CarriesNewline(a: Bytes, b: Bytes)
    requires a != [] && a[0] == NEWLINE && Carries(a[1..], b)
    ensures Carries(a, b)
  {
    assert (a + b)[1..] == a[1..] + b;
  }

  /** The first line goes on: what is in front of `a` is in front of its remainder. */
  lemma CarriesOpen(a: Bytes, b: Bytes)
    requires a != [] && a[0] != NEWLINE && Lines(a[1..]) == [] && Carries(a[1..], b)
    ensures Carries(a, b)
  {
    assert (a + b)[1..] == a[1..] + b;
    var rest := Remainder(a[1..]);
    assert Lines(a) == [] && Remainder(a) == [a[0]] + rest;
    assert Remainder(a) + b == [a[0]] + (rest + b);
    assert (Remainder(a) + b)[1..] == rest + b;
  }

  lemma CarriesLine(a: Bytes, b: Bytes)
    requires a != [] && a[0] != NEWLINE && Lines(a[1..]) != [] && Carries(a[1..], b)
    ensures Carries(a, b)
  {
    assert (a + b)[1..] == a[1..] + b;
    var lines, more := Lines(a[1..]), Lines(Remainder(a[1..]) + b);
    assert (lines + more)[1..] == lines[1..] + more && (lines + more)[0] == lines[0];
    assert Lines(a) == [[a[0]] + lines[0]] + lines[1..];
    assert Lines(a + b) == [[a[0]] + lines[0]] + (lines[1..] + more);
  }

  /** Splitting commutes with concatenation: the remainder of the first part is carried into the second. */
  lemma {:induction false} SplitConcat(a: Bytes, b: Bytes)
    ensures Lines(a + b) == Lines(a) + Lines(Remainder(a) + b)
    ensures Remainder(a + b) == Remainder(Remainder(a) + b)
  {
    if a == [] {
      assert a + b == b && Remainder(a) + b == b;
    } else {
      SplitConcat(a[1..], b);
      if a[0] == NEWLINE {
        CarriesNewline(a, b);
      } else if Lines(a[1..]) == [] {
        CarriesOpen(a, b);
      } else {
        CarriesLine(a, b);
      }
    }
  }

  lemma {:induction false} DecodedConcat<M>(a: seq<Bytes>, b: seq<Bytes>, decode: Decoder<M>)
    ensures Decoded(a + b, decode) == Decoded(a, decode) + Decoded(b, decode)
  {
    if a == [] {
      assert a + b == b;
    } else {
      var first := match decode(a[0]) case Some(m) => [m] case None => [];
      DecodedConcat(a[1..], b, decode);
      assert (a + b)[1..] == a[1..] + b;
      assert Decoded(a + b, decode) == first + (Decoded(a[1..], decode) + Decoded(b, decode));
      assert Decoded(a, decode) == first + Decoded(a[1..], decode);
    }
  }

  /** Parsing in two goes: the remainder of the first is carried into the second. */
  lemma ParseConcat<M>(a: Bytes, b: Bytes, decode: Decoder<M>)
    ensures ParseMessages(a + b, decode) ==
            (ParseMessages(a, decode).0 + ParseMessages(Remainder(a) + b, decode).0, Remainder(Remainder(a) + b))
  {
    SplitConcat(a, b);
    DecodedConcat(Lines(a), Lines(Remainder(a) + b), decode);
  }

  function Joined(chunks: seq<Bytes>): Bytes {
    if chunks == [] then [] else chunks[0] + Joined(chunks[1..])
  }

  lemma {:induction false} JoinedConcat(a: seq<Bytes>, b: seq<Bytes>)
    ensures Joined(a + b) == Joined(a) + Joined(b)
  {
    if a == [] {
      assert a + b == b;
    } else {
      JoinedConcat(a[1..], b);
      assert (a + b)[1..] == a[1..] + b;
      assert Joined(a + b) == a[0] + (Joined(a[1..]) + Joined(b));
    }
  }

  lemma JoinedOne(chunk: Bytes)
    ensures Joined([chunk]) == chunk
  {
    assert Joined([chunk]) == chunk + Joined([]);
  }

  /** Feeding chunks one after the other, each appended to what the previous ones left. */
  function Fed<M>(rest: Bytes, chunks: seq<Bytes>, decode: Decoder<M>): (seq<M>, Bytes)
    decreases |chunks|
  {
    if chunks == [] then ([], rest)
    else
      var (first, left) := ParseMessages(rest + chunks[0], decode);
      var (more, last) := Fed(left, chunks[1..], decode);
      (first + more, last)
  }

  /** However a byte stream is divided, the messages and the remainder are those of the whole. */
  lemma {:induction false} FedIsWhole<M>(rest: Bytes, chunks: seq<Bytes>, decode: Decoder<M>)
    requires NEWLINE !in rest
    ensures Fed(rest, chunks, decode) == ParseMessages(rest + Joined(chunks), decode)
    decreases |chunks|
  {
    if chunks == [] {
      SplitPlain(rest);
      assert rest + Joined(chunks) == rest;
    } else {
      var head := rest + chunks[0];
      FedIsWhole(Remainder(head), chunks[1..], decode);
      SplitConcat(head, Joined(chunks[1..]));
      assert rest + Joined(chunks) == head + Joined(chunks[1..]);
      DecodedConcat(Lines(head), Lines(Remainder(head) + Joined(chunks[1..])), decode);
    }
  }

  /** A message as sent: its JSON text and a newline. */
  function EncodeMessage<M>(m: M, json: M -> Bytes): Bytes {
    json(m) + [NEWLINE]
  }

  function EncodeAll<M>(ms: seq<M>, json: M -> Bytes): Bytes {
    if ms == [] then [] else EncodeMessage(ms[0], json) + EncodeAll(ms[1..], json)
  }

  lemma {:induction false} EncodedSplits<M>(ms: seq<M>, json: M -> Bytes, decode: Decoder<M>)
    requires forall m <- ms :: NEWLINE !in json(m) && decode(json(m)) == Some(m)
    ensures ParseMessages(EncodeAll(ms, json), decode) == (ms, [])
  {
    if ms != [] {
      EncodedSplits(ms[1..], json, decode);
      assert ms[0] in ms;
      SplitFirst(json(ms[0]), EncodeAll(ms[1..], json));
      assert [ms[0]] + ms[1..] == ms;
    }
  }

  /** Messages written by the encoder come back in order, with nothing left over, under any chunking. */
  lemma RoundTrip<M>(ms: seq<M>, chunks: seq<Bytes>, json: M -> Bytes, decode: Decoder<M>)
    requires forall m <- ms :: NEWLINE !in json(m) && decode(json(m)) == Some(m)
    requires Joined(chunks) == EncodeAll(ms, json)
    ensures Fed([], chunks, decode) == (ms, [])
  {
    FedIsWhole([], chunks, decode);
    EncodedSplits(ms, json, decode);
    assert [] + Joined(chunks) == Joined(chunks);
  }
}

module IpcParsers {
  import opened Base
  import opened Framing

  const DEFAULT_MAX_REMAINDER_BYTES: nat := 16 * 1024 * 1024

  /** No newline among the bytes [lo, hi). */
  ghost predicate Plain(data: Bytes, lo: int, hi: int) {
    forall k :: 0 <= k < |data| && lo <= k < hi ==> data[k] != NEWLINE
  }

  /** The first index at or after `from` holding a newline, or the length of the chunk. */
  function IndexOfNewline(chunk: Bytes, from: nat): (idx: nat)
    requires from <= |chunk|
    ensures from <= idx <= |chunk| && Plain(chunk, from, idx)
    ensures idx < |chunk| ==> chunk[idx] == NEWLINE
    decreases |chunk| - from
  {
    if from == |chunk| || chunk[from] == NEWLINE then from else IndexOfNewline(chunk, from + 1)
  }

  lemma SliceGrows(data: Bytes, part: Bytes, before: nat, take: nat)
    requires take <= |part| && before + |part| <= |data|
    requires forall k :: 0 <= k < |part| ==> data[before + k] == part[k]
    ensures data[..before + take] == data[..before] + part[..take]
  {
  }

  lemma PrefixWhole(parts: seq<Bytes>, i: nat)
    requires i <= |parts|
    ensures i == |parts| ==> Joined(parts[..i]) == Joined(parts)
  {
    assert i == |parts| ==> parts[..i] == parts;
  }

  /** Where the bytes of chunk `i` are in the joined bytes. */
  lemma JoinedAt(parts: seq<Bytes>, i: nat)
    requires i < |parts|
    ensures |Joined(parts[..i + 1])| == |Joined(parts[..i])| + |parts[i]| <= |Joined(parts)|
    ensures forall k :: 0 <= k < |parts[i]| ==> Joined(parts)[|Joined(parts[..i])| + k] == parts[i][k]
  {
    assert parts[..i + 1] == parts[..i] + [parts[i]];
    JoinedConcat(parts[..i], [parts[i]]);
    JoinedOne(parts[i]);
    assert parts == parts[..i + 1] + parts[i + 1..];
    JoinedConcat(parts[..i + 1], parts[i + 1..]);
  }

  /** What a frame gives: one message, or nothing. */
  function Emitted<M>(line: Bytes, decode: Decoder<M>): seq<M> {
    match decode(line)
    case Some(m) => [m]
    case None => []
  }

  function After<M>(messages: seq<M>, parsed: (seq<M>, Bytes)): (seq<M>, Bytes) {
    (messages + parsed.0, parsed.1)
  }

  /** Cutting the first frame off the front of a buffer is what parsing it does first. */
  lemma FrameCut<M>(messages: seq<M>, data: Bytes, pos: nat, decode: Decoder<M>)
    requires pos < |data| && data[pos] == NEWLINE && Plain(data, 0, pos)
    ensures After(messages, ParseMessages(data, decode)) ==
            After(messages + Emitted(data[..pos], decode), ParseMessages(data[pos + 1..], decode))
  {
    assert data == data[..pos] + [NEWLINE] + data[pos + 1..];
    SplitFirst(data[..pos], data[pos + 1..]);
    assert messages + (Emitted(data[..pos], decode) + Decoded(Lines(data[pos + 1..]), decode)) ==
           (messages + Emitted(data[..pos], decode)) + Decoded(Lines(data[pos + 1..]), decode);
  }

  class IPCMessageParser {
    var chunks: seq<Bytes>
    var firstChunkOffset: nat
    var totalBytes: nat
    var scannedBytes: nat
    const maxRemainderBytes: nat
    ghost var pushed: nat    // bytes pushed so far
    ghost var examined: nat  // bytes looked at by newline searches so far

    /** The buffered chunks without the consumed front of the first one. */
    ghost function Parts(): seq<Bytes>
      requires chunks != [] ==> firstChunkOffset <= |chunks[0]|
      reads this
    {
      if chunks == [] then [] else [chunks[0][firstChunkOffset..]] + chunks[1..]
    }

    ghost function Buffered(): Bytes
      requires chunks != [] ==> firstChunkOffset <= |chunks[0]|
      reads this
    {
      Joined(Parts())
    }

    ghost predicate Valid()
      reads this
    {
      && (chunks == [] ==> firstChunkOffset == 0)
      && (chunks != [] ==> firstChunkOffset <= |chunks[0]|)
      && totalBytes == |Buffered()| && scannedBytes <= totalBytes
      && Plain(Buffered(), 0, scannedBytes)
      && examined + (totalBytes - scannedBytes) <= pushed
    }

    /** Between calls everything buffered has been searched. */
    ghost predicate Settled()
      reads this
    {
      Valid() && scannedBytes == totalBytes
    }

    constructor (maxRemainderBytes: nat := DEFAULT_MAX_REMAINDER_BYTES)
      ensures Settled() && Buffered() == [] && pushed == examined == 0
      ensures this.maxRemainderBytes == maxRemainderBytes
    {
      this.maxRemainderBytes := maxRemainderBytes;
      chunks, firstChunkOffset, totalBytes, scannedBytes := [], 0, 0, 0;
      pushed, examined := 0, 0;
    }

    /** The offset of the first newline at or after `absoluteStart`, or -1; each byte passed is looked at once. */
    method FindNewline(absoluteStart: nat) returns (pos: int, ghost work: nat)
      requires Valid()
      ensures pos < 0 ==> Plain(Buffered(), absoluteStart, totalBytes)
      ensures pos < 0 ==> work == if absoluteStart < totalBytes then totalBytes - absoluteStart else 0
      ensures pos >= 0 ==>
                && absoluteStart <= pos < totalBytes && Buffered()[pos] == NEWLINE
                && Plain(Buffered(), absoluteStart, pos) && work == pos + 1 - absoluteStart
    {
      if absoluteStart >= totalBytes {
        return -1, 0;
      }
      ghost var parts := Parts();
      var remain := absoluteStart;
      var ci := 0;
      while true
        invariant 0 <= ci < |chunks| == |parts|
        invariant 0 <= remain && remain + |Joined(parts[..ci])| == absoluteStart
        decreases |chunks| - ci
      {
        var start := if ci == 0 then firstChunkOffset else 0;
        var avail := |chunks[ci]| - start;
        JoinedAt(parts, ci);
        if remain < avail {
          break;
        }
        remain := remain - avail;
        ci := ci + 1;
        PrefixWhole(parts, ci);
      }
      pos, work := SearchFrom(absoluteStart, ci, remain);
    }

    /** The search proper, from byte `remain` of chunk `ci` on. */
    method SearchFrom(absoluteStart: nat, from: nat, skip: nat) returns (pos: int, ghost work: nat)
      requires Valid() && from < |chunks| && skip <= |Parts()[from]|
      requires |Joined(Parts()[..from])| + skip == absoluteStart < totalBytes
      ensures pos < 0 ==> Plain(Buffered(), absoluteStart, totalBytes) && work == totalBytes - absoluteStart
      ensures pos >= 0 ==>
                && absoluteStart <= pos < totalBytes && Buffered()[pos] == NEWLINE
                && Plain(Buffered(), absoluteStart, pos) && work == pos + 1 - absoluteStart
    {
      ghost var parts := Parts();
      var ci, remain, logicalPos := from, skip, absoluteStart;
      JoinedAt(parts, from);
      work := 0;
      while ci < |chunks|
        invariant 0 <= ci <= |chunks| && 0 <= remain && 0 <= logicalPos
        invariant Searched(parts, ci, remain, absoluteStart, logicalPos) && work == logicalPos - absoluteStart
      {
        var start := if ci == 0 then firstChunkOffset else 0;
        var idx := IndexOfNewline(chunks[ci], start + remain);
        SearchStep(parts, chunks[ci], start, ci, remain, absoluteStart, logicalPos, idx);
        work := work + (idx - (start + remain));
        if idx < |chunks[ci]| {
          return logicalPos + (idx - (start + remain)), work + 1;
        }
        logicalPos := logicalPos + (|chunks[ci]| - start - remain);
        remain := 0;
        ci := ci + 1;
      }
      SearchedAll(parts, absoluteStart, logicalPos);
      return -1, work;
    }

    /** The buffered bytes [0, endExclusive). */
    method SliceRange(endExclusive: nat) returns (frame: Bytes)
      requires Valid() && endExclusive <= totalBytes
      ensures frame == Buffered()[..endExclusive]
    {
      ghost var all, data := Parts(), Buffered();
      var parts: seq<Bytes> := [];
      var remaining := endExclusive;
      var ci := 0;
      while ci < |chunks| && remaining > 0
        invariant 0 <= ci <= |chunks| == |all| && 0 <= remaining
        invariant |Joined(parts)| + remaining == endExclusive
        invariant Joined(parts) == data[..|Joined(parts)|]
        invariant remaining > 0 ==> |Joined(parts)| == |Joined(all[..ci])|
      {
        var start := if ci == 0 then firstChunkOffset else 0;
        var take := if remaining < |chunks[ci]| - start then remaining else |chunks[ci]| - start;
        ghost var before := |Joined(parts)|;
        JoinedAt(all, ci);
        JoinedConcat(parts, [chunks[ci][start..start + take]]);
        JoinedOne(chunks[ci][start..start + take]);
        assert chunks[ci][start..start + take] == all[ci][..take];
        SliceGrows(data, all[ci], before, take);
        parts := parts + [chunks[ci][start..start + take]];
        remaining := remaining - take;
        ci := ci + 1;
      }
      assert all[..|all|] == all;
      if |parts| == 1 {
        JoinedOne(parts[0]);
        return parts[0];
      }
      return Joined(parts);
    }

    /** Drops the first `count` buffered bytes; the counters are the caller's business. */
    method ConsumeFront(count: nat)
      requires chunks == [] ==> firstChunkOffset == 0
      requires chunks != [] ==> firstChunkOffset <= |chunks[0]|
      requires count <= |Buffered()|
      modifies `chunks, `firstChunkOffset
      ensures chunks == [] ==> firstChunkOffset == 0
      ensures chunks != [] ==> firstChunkOffset <= |chunks[0]|
      ensures Buffered() == old(Buffered()[count..])
    {
      ghost var data := Buffered();
      var left := count;
      while left > 0 && |chunks| > 0
        invariant 0 <= left
        invariant chunks == [] ==> firstChunkOffset == 0
        invariant chunks != [] ==> firstChunkOffset <= |chunks[0]|
        invariant left <= |Buffered()| && Buffered()[left..] == data[count..]
        decreases |chunks|
      {
        var avail := |chunks[0]| - firstChunkOffset;
        assert Parts()[0] == chunks[0][firstChunkOffset..] && Parts()[1..] == chunks[1..];
        if left < avail {
          ghost var first := Parts()[0];
          ghost var tail := Joined(Parts()[1..]);
          firstChunkOffset := firstChunkOffset + left;
          assert Parts()[0] == first[left..] && Parts()[1..] == chunks[1..];
          assert (first + tail)[left..] == first[left..] + tail;
          return;
        }
        ghost var first, tail := Parts()[0], Joined(chunks[1..]);
        assert (first + tail)[left..] == tail[left - avail..];
        left := left - avail;
        chunks := chunks[1..];
        firstChunkOffset := 0;
        assert chunks != [] ==> Parts() == chunks;
      }
    }

    /** A new chunk goes behind what is buffered. */
    method Append(chunk: Bytes)
      requires Settled()
      modifies `chunks, `totalBytes, `pushed
      ensures Valid() && Buffered() == old(Buffered()) + chunk
      ensures pushed == old(pushed) + |chunk|
    {
      ghost var parts, data := Parts(), Buffered();
      totalBytes := totalBytes + |chunk|;
      chunks := chunks + [chunk];
      pushed := pushed + |chunk|;
      assert Parts() == parts + [chunk];
      JoinedConcat(parts, [chunk]);
      JoinedOne(chunk);
    }

    /** The frame before the newline found is cut off, and its newline with it. */
    method TakeFrame(newlinePos: nat, ghost work: nat) returns (lineBuf: Bytes)
      requires Valid() && scannedBytes <= newlinePos < totalBytes && work == newlinePos + 1 - scannedBytes
      modifies this
      ensures Valid() && scannedBytes == 0 && pushed == old(pushed)
      ensures totalBytes == old(totalBytes) - (newlinePos + 1)
      ensures lineBuf == old(Buffered())[..newlinePos] && Buffered() == old(Buffered())[newlinePos + 1..]
    {
      lineBuf := SliceRange(newlinePos);
      var consumed := newlinePos + 1;
      ConsumeFront(consumed);
      totalBytes := totalBytes - consumed;
      scannedBytes := 0;
      examined := examined + work;
    }

    /**
     Takes in a chunk and emits the messages it completes: those of the whole-buffer parser on everything
     buffered. When the buffer would grow past its limit everything buffered is dropped instead.
     */
    method Push<M>(chunk: Bytes, decode: Decoder<M>) returns (overflow: bool, messages: seq<M>)
      requires Settled()
      modifies this
      ensures Settled() && pushed == old(pushed) + |chunk| && examined <= pushed
      ensures overflow <==> |old(Buffered())| + |chunk| > maxRemainderBytes
      ensures overflow ==> messages == [] && Buffered() == []
      ensures !overflow ==> (messages, Buffered()) == ParseMessages(old(Buffered()) + chunk, decode)
    {
      messages := [];
      if totalBytes + |chunk| > maxRemainderBytes {
        Reset();
        pushed := pushed + |chunk|;
        return true, [];
      }
      Append(chunk);
      ghost var whole := Buffered();
      assert [] + ParseMessages(whole, decode).0 == ParseMessages(whole, decode).0;
      var scanFrom := scannedBytes;
      while scanFrom < totalBytes
        invariant Valid() && scanFrom == scannedBytes && pushed == old(pushed) + |chunk|
        invariant ParseMessages(whole, decode) == After(messages, ParseMessages(Buffered(), decode))
        decreases totalBytes - scanFrom
      {
        var newlinePos, work := FindNewline(scanFrom);
        if newlinePos < 0 {
          examined := examined + work;
          scannedBytes := totalBytes;
          break;
        }
        FrameCut(messages, Buffered(), newlinePos, decode);
        var lineBuf := TakeFrame(newlinePos, work);
        messages := messages + Emitted(lineBuf, decode);
        scanFrom := 0;
      }
      SplitPlain(Buffered());
      assert messages + [] == messages;
      overflow := false;
    }

    method Reset()
      requires Valid()
      modifies this
      ensures Settled() && Buffered() == [] && pushed == old(pushed)
    {
      chunks, firstChunkOffset, totalBytes, scannedBytes := [], 0, 0, 0;
    }

    /** A stream fed chunk by chunk, up to the first one that overflows the buffer. */
    method Feed<M>(stream: seq<Bytes>, decode: Decoder<M>) returns (overflow: bool, messages: seq<M>)
      requires Settled()
      modifies this
      ensures Settled() && examined <= pushed
      ensures overflow <==> Overflows(old(Buffered()), stream, maxRemainderBytes)
      ensures !overflow ==> (messages, Buffered()) == ParseMessages(old(Buffered()) + Joined(stream), decode)
      ensures !overflow ==> pushed == old(pushed) + |Joined(stream)|
    {
      overflow, messages := false, [];
      ghost var rest := Buffered();
      SplitPlain(rest);
      assert rest + Joined([]) == rest && stream[..0] == [] && stream[0..] == stream;
      for i := 0 to |stream|
        invariant Settled()
        invariant Overflows(rest, stream, maxRemainderBytes) == Overflows(Buffered(), stream[i..], maxRemainderBytes)
        invariant (messages, Buffered()) == ParseMessages(rest + Joined(stream[..i]), decode)
        invariant pushed == old(pushed) + |Joined(stream[..i])|
      {
        ghost var before := rest + Joined(stream[..i]);
        var more;
        overflow, more := Push(stream[i], decode);
        assert stream[i..][1..] == stream[i + 1..];
        if overflow {
          return;
        }
        messages := messages + more;
        ParseConcat(before, stream[i], decode);
        PrefixGrows(rest, stream, i);
      }
      assert stream[..|stream|] == stream && stream[|stream|..] == [];
    }
  }

  lemma PrefixGrows(rest: Bytes, stream: seq<Bytes>, i: nat)
    requires i < |stream|
    ensures rest + Joined(stream[..i + 1]) == rest + Joined(stream[..i]) + stream[i]
  {
    assert stream[..i + 1] == stream[..i] + [stream[i]];
    JoinedConcat(stream[..i], [stream[i]]);
    JoinedOne(stream[i]);
  }

  /** Some chunk of the stream meets a buffer that it makes too long. */
  ghost predicate Overflows(rest: Bytes, stream: seq<Bytes>, limit: nat)
    decreases |stream|
  {
    stream != [] && (|rest| + |stream[0]| > limit || Overflows(Remainder(rest + stream[0]), stream[1..], limit))
  }

  /** A search for a newline has reached byte `skip` of part `ci`, which is byte `at` of the whole. */
  ghost predicate Searched(parts: seq<Bytes>, ci: nat, skip: nat, from: nat, at: nat) {
    && ci <= |parts| && (if ci < |parts| then skip <= |parts[ci]| else skip == 0)
    && from <= at == |Joined(parts[..ci])| + skip
    && Plain(Joined(parts), from, at)
  }

  lemma SearchedAll(parts: seq<Bytes>, from: nat, at: nat)
    requires Searched(parts, |parts|, 0, from, at)
    ensures at == |Joined(parts)| && Plain(Joined(parts), from, |Joined(parts)|)
  {
    assert parts[..|parts|] == parts;
  }

  /** One chunk of a search: either the newline is found, or the search moves to the next chunk. */
  lemma SearchStep(parts: seq<Bytes>, chunk: Bytes, start: nat, ci: nat, skip: nat, from: nat, at: nat, idx: nat)
    requires ci < |parts| && Searched(parts, ci, skip, from, at)
    requires start + skip <= idx <= |chunk| && parts[ci] == chunk[start..] && Plain(chunk, start + skip, idx)
    ensures at + (idx - (start + skip)) <= |Joined(parts)|
    ensures Plain(Joined(parts), from, at + (idx - (start + skip)))
    ensures idx == |chunk| ==> Searched(parts, ci + 1, 0, from, at + (|chunk| - start - skip))
    ensures idx < |chunk| ==>
              at + (idx - (start + skip)) < |Joined(parts)| && Joined(parts)[at + (idx - (start + skip))] == chunk[idx]
  {
    JoinedAt(parts, ci);
    SearchInside(Joined(parts), parts[ci], chunk, start, |Joined(parts[..ci])|, skip, from, at, idx);
  }

  lemma SearchInside(
    data: Bytes, part: Bytes, chunk: Bytes, start: nat, before: nat, skip: nat, from: nat, at: nat, idx: nat)
    requires start + skip <= idx <= |chunk| && part == chunk[start..] && before + |part| <= |data|
    requires forall k :: 0 <= k < |part| ==> data[before + k] == part[k]
    requires Plain(chunk, start + skip, idx) && at == before + skip && Plain(data, from, at)
    ensures Plain(data, from, at + (idx - (start + skip)))
    ensures idx < |chunk| ==> data[at + (idx - (start + skip))] == chunk[idx]
  {
    FoundInside(data, part, chunk, start, before, skip, idx);
    PlainJoin(data, from, at, before + idx - start);
  }

  lemma PlainJoin(data: Bytes, lo: int, mid: int, hi: int)
    requires Plain(data, lo, mid) && Plain(data, mid, hi)
    ensures Plain(data, lo, hi)
  {
  }

  /** A search inside one chunk, told in offsets of the whole buffer. */
  lemma FoundInside(data: Bytes, part: Bytes, chunk: Bytes, start: nat, before: nat, skip: nat, idx: nat)
    requires start + skip <= idx <= |chunk| && part == chunk[start..] && before + |part| <= |data|
    requires forall k :: 0 <= k < |part| ==> data[before + k] == part[k]
    requires Plain(chunk, start + skip, idx)
    ensures Plain(data, before + skip, before + idx - start)
    ensures idx < |chunk| ==> data[before + idx - start] == chunk[idx]
  {
    forall k | 0 <= k < |data| && before + skip <= k < before + idx - start ensures data[k] != NEWLINE {
      assert data[before + (k - before)] == part[k - before];
    }
    if idx < |chunk| {
      assert data[before + (idx - start)] == part[idx - start];
    }
  }
}
