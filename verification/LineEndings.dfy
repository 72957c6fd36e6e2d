/**
 Line-ending conversion (src/file-transfer.ts): the streaming transform against
 the conversion of the whole text at once.
 */
module LineEndings {
  import opened Base

  const CR: char := '\r'
  const LF: char := '\n'
  const DETECTION_SAMPLE_LIMIT: nat := 256 * 1024

  datatype Eol = Lf | Crlf | Mixed | Binary

  function ReplaceCrlf(s: string): string {
    if s == "" then ""
    else if s[0] == CR && |s| > 1 && s[1] == LF then [LF] + ReplaceCrlf(s[2..])
    else [s[0]] + ReplaceCrlf(s[1..])
  }

  function ReplaceCr(s: string): string {
    if s == "" then "" else [if s[0] == CR then LF else s[0]] + ReplaceCr(s[1..])
  }

  function ReplaceLf(s: string): string {
    if s == "" then "" else (if s[0] == LF then [CR, LF] else [s[0]]) + ReplaceLf(s[1..])
  }

  function ConvertLineEndingsString(text: string, fromEol: Eol, toEol: Eol): string {
    if fromEol == toEol || fromEol == Binary || toEol == Binary then text
    else
      var normalized := ReplaceCr(ReplaceCrlf(text));
      if toEol == Lf then normalized
      else if toEol == Crlf then ReplaceLf(normalized)
      else text
  }

  function CrlfCount(s: string): nat {
    if |s| < 2 then 0 else (if s[0] == CR && s[1] == LF then 1 else 0) + CrlfCount(s[1..])
  }

  /** Line feeds without a carriage return before them; `before` tells whether one stands before the text. */
  function LfOnlyCount(s: string, before: bool): nat {
    if s == "" then 0 else (if s[0] == LF && !before then 1 else 0) + LfOnlyCount(s[1..], s[0] == CR)
  }

  function DetectLineEnding(text: string): Eol {
    var crlfCount, lfOnlyCount := CrlfCount(text), LfOnlyCount(text, false);
    if crlfCount > 0 && lfOnlyCount > 0 then Mixed
    else if crlfCount > lfOnlyCount then Crlf
    else Lf
  }

  // ---- The streaming transform

  datatype Converter = Converter(detected: Option<Eol>, sample: string, leftover: string)

  const NEW_CONVERTER: Converter := Converter(None, "", "")

  function Slice(s: string, n: nat): string {
    if |s| <= n then s else s[..n]
  }

  /** The sample grows to its limit; crlf and mixed are kept once seen. */
  function Detecting(c: Converter, str: string): Converter {
    if |c.sample| >= DETECTION_SAMPLE_LIMIT then c
    else
      var sample := c.sample + Slice(str, DETECTION_SAMPLE_LIMIT - |c.sample|);
      var detected := DetectLineEnding(sample);
      if detected == Crlf || detected == Mixed || c.detected == None
      then c.(sample := sample, detected := Some(detected))
      else c.(sample := sample)
  }

  predicate EndsInCr(s: string) {
    s != "" && s[|s| - 1] == CR
  }

  /** The text without a carriage return at its end. */
  function Body(s: string): string {
    if EndsInCr(s) then s[..|s| - 1] else s
  }

  /** One chunk: the converter after it and what it puts out. */
  function Transformed(c: Converter, str: string, target: Eol): (Converter, string) {
    if target == Binary then (c, str)
    else
      var d := Detecting(c, str);
      var data := c.leftover + str;
      (d.(leftover := if EndsInCr(data) then [CR] else ""),
       if d.detected.Some? then ConvertLineEndingsString(Body(data), d.detected.value, target) else Body(data))
  }

  function FlushOutput(c: Converter, target: Eol): string {
    if |c.leftover| > 0 && c.detected.Some? then ConvertLineEndingsString(c.leftover, c.detected.value, target) else ""
  }

  /** All that is put out for a sequence of chunks. */
  function Streamed(c: Converter, chunks: seq<string>, target: Eol): string
    decreases |chunks|
  {
    if chunks == [] then FlushOutput(c, target)
    else
      var (next, out) := Transformed(c, chunks[0], target);
      out + Streamed(next, chunks[1..], target)
  }

  function Whole(chunks: seq<string>): string {
    if chunks == [] then "" else chunks[0] + Whole(chunks[1..])
  }

  class LineEndingTransform {
    const targetLineEnding: Eol
    var detectedSourceLineEnding: Option<Eol>
    var detectionSample: string
    var leftover: string

    function View(): Converter
      reads this
    {
      Converter(detectedSourceLineEnding, detectionSample, leftover)
    }

    constructor (targetLineEnding: Eol)
      ensures View() == NEW_CONVERTER && this.targetLineEnding == targetLineEnding
    {
      this.targetLineEnding := targetLineEnding;
      detectedSourceLineEnding, detectionSample, leftover := None, "", "";
    }

    method Transform(str: string) returns (pushed: string)
      modifies this
      ensures (View(), pushed) == Transformed(old(View()), str, targetLineEnding)
    {
      if targetLineEnding == Binary {
        return str;
      }
      if |detectionSample| < DETECTION_SAMPLE_LIMIT {
        var remaining := DETECTION_SAMPLE_LIMIT - |detectionSample|;
        detectionSample := detectionSample + Slice(str, remaining);
        var detected := DetectLineEnding(detectionSample);
        if detected == Crlf || detected == Mixed {
          detectedSourceLineEnding := Some(detected);
        } else if detectedSourceLineEnding == None {
          detectedSourceLineEnding := Some(detected);
        }
      }
      assert View() == Detecting(old(View()), str);
      var data := leftover + str;
      leftover := "";
      if |data| > 0 && data[|data| - 1] == CR {
        leftover := [CR];
        data := data[..|data| - 1];
      }
      assert data == Body(old(leftover) + str);
      if detectedSourceLineEnding.Some? {
        data := ConvertLineEndingsString(data, detectedSourceLineEnding.value, targetLineEnding);
      }
      return data;
    }

    method Flush() returns (pushed: string)
      ensures pushed == FlushOutput(View(), targetLineEnding)
    {
      if |leftover| > 0 && detectedSourceLineEnding.Some? {
        return ConvertLineEndingsString(leftover, detectedSourceLineEnding.value, targetLineEnding);
      }
      return "";
    }
  }

  /** A whole stream through the transform. */
  method Pipe(chunks: seq<string>, target: Eol) returns (output: string)
    ensures output == Streamed(NEW_CONVERTER, chunks, target)
    ensures (target == Binary || (target != Mixed && Steady(Whole(chunks), target))) ==>
              output == ConvertLineEndingsString(Whole(chunks), DetectLineEnding(Whole(chunks)), target)
  {
    var transform := new LineEndingTransform(target);
    output := "";
    assert chunks[0..] == chunks;
    for i := 0 to |chunks|
      invariant transform.targetLineEnding == target
      invariant Streamed(NEW_CONVERTER, chunks, target) == output + Streamed(transform.View(), chunks[i..], target)
    {
      StreamGoesOn(transform.View(), chunks, i, target);
      var pushed := transform.Transform(chunks[i]);
      Associate(output, pushed, Streamed(transform.View(), chunks[i + 1..], target));
      output := output + pushed;
    }
    var last := transform.Flush();
    output := output + last;
    if target == Binary || (target != Mixed && Steady(Whole(chunks), target)) {
      StreamIsWhole(chunks, target);
    }
  }

  lemma StreamGoesOn(c: Converter, chunks: seq<string>, i: nat, target: Eol)
    requires i < |chunks|
    ensures
      var (next, out) := Transformed(c, chunks[i], target);
      Streamed(c, chunks[i..], target) == out + Streamed(next, chunks[i + 1..], target)
  {
    assert chunks[i..][1..] == chunks[i + 1..];
  }

  // ---- What detection says

  /** Every carriage return has its line feed. */
  predicate NoLoneCr(s: string) {
    forall i :: 0 <= i < |s| && s[i] == CR ==> i + 1 < |s| && s[i + 1] == LF
  }

  predicate HasCrlf(s: string) {
    exists i :: 0 <= i < |s| - 1 && s[i] == CR && s[i + 1] == LF
  }

  predicate LfOnlyAt(s: string, before: bool, i: nat)
    requires i < |s|
  {
    s[i] == LF && !(if i == 0 then before else s[i - 1] == CR)
  }

  predicate HasLfOnly(s: string, before: bool) {
    exists i: nat :: i < |s| && LfOnlyAt(s, before, i)
  }

  lemma {:induction false} CrlfCounted(s: string)
    ensures CrlfCount(s) > 0 <==> HasCrlf(s)
  {
    if |s| >= 2 {
      CrlfCounted(s[1..]);
      if HasCrlf(s[1..]) {
        var i :| 0 <= i < |s[1..]| - 1 && s[1..][i] == CR && s[1..][i + 1] == LF;
        assert s[i + 1] == CR && s[i + 2] == LF;
      }
      if HasCrlf(s) && !(s[0] == CR && s[1] == LF) {
        var i :| 0 <= i < |s| - 1 && s[i] == CR && s[i + 1] == LF;
        assert s[1..][i - 1] == CR && s[1..][i] == LF;
      }
    }
  }

  lemma {:induction false} LfOnlyCounted(s: string, before: bool)
    ensures LfOnlyCount(s, before) > 0 <==> HasLfOnly(s, before)
  {
    if s != "" {
      var rest, cr := s[1..], s[0] == CR;
      LfOnlyCounted(rest, cr);
      if HasLfOnly(rest, cr) {
        var i: nat :| i < |rest| && LfOnlyAt(rest, cr, i);
        assert LfOnlyAt(s, before, i + 1);
      }
      if HasLfOnly(s, before) && !(s[0] == LF && !before) {
        var i: nat :| i < |s| && LfOnlyAt(s, before, i);
        assert LfOnlyAt(rest, cr, i - 1);
      }
      if s[0] == LF && !before {
        assert LfOnlyAt(s, before, 0);
      }
    }
  }

  lemma DetectTells(s: string)
    ensures DetectLineEnding(s) == Lf <==> !HasCrlf(s)
    ensures DetectLineEnding(s) == Crlf <==> HasCrlf(s) && !HasLfOnly(s, false)
    ensures DetectLineEnding(s) == Mixed <==> HasCrlf(s) && HasLfOnly(s, false)
  {
    CrlfCounted(s);
    LfOnlyCounted(s, false);
  }

  // ---- The canonical form

  function Canonical(s: string, target: Eol): string {
    var normalized := ReplaceCr(ReplaceCrlf(s));
    if target == Lf then normalized else if target == Crlf then ReplaceLf(normalized) else s
  }

  /** No line ending is cut in two between the texts. */
  predicate CleanCut(a: string, b: string) {
    EndsInCr(a) && b != "" ==> b[0] != LF
  }

  /** How much of the text its first replacement or kept character takes. */
  function StepLength(s: string): (n: nat)
    requires s != ""
    ensures 0 < n <= |s|
  {
    if s[0] == CR && |s| > 1 && s[1] == LF then 2 else 1
  }

  lemma SameStep(a: string, b: string)
    requires CleanCut(a, b) && a != ""
    ensures
      var n := StepLength(a);
      StepLength(a + b) == n && (a + b)[n..] == a[n..] + b && (a + b)[0] == a[0] && CleanCut(a[n..], b)
  {
    assert |a| > 1 ==> (a + b)[1] == a[1];
  }

  lemma ReplaceCrlfStep(s: string)
    requires s != ""
    ensures ReplaceCrlf(s) == [if StepLength(s) == 2 then LF else s[0]] + ReplaceCrlf(s[StepLength(s)..])
  {
  }

  lemma {:induction false} ReplaceCrlfConcat(a: string, b: string)
    requires CleanCut(a, b)
    ensures ReplaceCrlf(a + b) == ReplaceCrlf(a) + ReplaceCrlf(b)
  {
    if a == "" {
      assert a + b == b;
    } else {
      var n := StepLength(a);
      var first := [if n == 2 then LF else a[0]];
      SameStep(a, b);
      ReplaceCrlfConcat(a[n..], b);
      ReplaceCrlfStep(a);
      ReplaceCrlfStep(a + b);
      Associate(first, ReplaceCrlf(a[n..]), ReplaceCrlf(b));
    }
  }

  lemma {:induction false} ReplaceCrConcat(a: string, b: string)
    ensures ReplaceCr(a + b) == ReplaceCr(a) + ReplaceCr(b)
  {
    if a == "" {
      assert a + b == b;
    } else {
      ReplaceCrConcat(a[1..], b);
      assert (a + b)[1..] == a[1..] + b;
    }
  }

  lemma {:induction false} ReplaceLfConcat(a: string, b: string)
    ensures ReplaceLf(a + b) == ReplaceLf(a) + ReplaceLf(b)
  {
    if a == "" {
      assert a + b == b;
    } else {
      ReplaceLfConcat(a[1..], b);
      assert (a + b)[1..] == a[1..] + b;
      assert (a + b)[0] == a[0];
      var first := if a[0] == LF then [CR, LF] else [a[0]];
      assert first + (ReplaceLf(a[1..]) + ReplaceLf(b)) == (first + ReplaceLf(a[1..])) + ReplaceLf(b);
    }
  }

  lemma CanonicalConcat(a: string, b: string, target: Eol)
    requires CleanCut(a, b)
    ensures Canonical(a + b, target) == Canonical(a, target) + Canonical(b, target)
  {
    ReplaceCrlfConcat(a, b);
    ReplaceCrConcat(ReplaceCrlf(a), ReplaceCrlf(b));
    ReplaceLfConcat(ReplaceCr(ReplaceCrlf(a)), ReplaceCr(ReplaceCrlf(b)));
  }

  lemma {:induction false} NoCrIsNormal(s: string)
    requires forall i :: 0 <= i < |s| ==> s[i] != CR
    ensures ReplaceCr(ReplaceCrlf(s)) == s
  {
    if s != "" {
      NoCrIsNormal(s[1..]);
      assert s == [s[0]] + s[1..];
      assert ReplaceCrlf(s)[1..] == ReplaceCrlf(s[1..]);
    }
  }

  /** The rest of a text whose line feeds all follow a carriage return is such a text. */
  lemma RestAllCrlf(s: string, n: nat)
    requires NoLoneCr(s) && !HasLfOnly(s, false) && 0 < n <= |s| && s[n - 1] != CR
    ensures NoLoneCr(s[n..]) && !HasLfOnly(s[n..], false)
  {
    var rest := s[n..];
    if HasLfOnly(rest, false) {
      var i: nat :| i < |rest| && LfOnlyAt(rest, false, i);
      assert LfOnlyAt(s, false, i + n);
    }
    forall i | 0 <= i < |rest| && rest[i] == CR ensures i + 1 < |rest| && rest[i + 1] == LF {
      assert s[i + n] == CR;
    }
  }

  lemma {:induction false} AllCrlfIsCanonical(s: string)
    requires NoLoneCr(s) && !HasLfOnly(s, false)
    ensures ReplaceLf(ReplaceCr(ReplaceCrlf(s))) == s
  {
    if s != "" {
      var n := if s[0] == CR then 2 else 1;
      var rest := s[n..];
      assert LfOnlyAt(s, false, 0) <==> s[0] == LF;
      RestAllCrlf(s, n);
      AllCrlfIsCanonical(rest);
      assert s == s[..n] + rest;
      assert ReplaceCrlf(s)[1..] == ReplaceCrlf(rest);
      assert ReplaceCr(ReplaceCrlf(s))[1..] == ReplaceCr(ReplaceCrlf(rest));
    }
  }

  /** Nothing in the text calls for a change to the target's line endings. */
  predicate Settled(s: string, target: Eol) {
    (target == Lf ==> !HasCrlf(s)) && (target == Crlf ==> !HasLfOnly(s, false))
  }

  lemma SettledPrefix(a: string, b: string, target: Eol)
    requires Settled(a + b, target)
    ensures Settled(a, target)
  {
    var whole := a + b;
    if HasCrlf(a) {
      var i :| 0 <= i < |a| - 1 && a[i] == CR && a[i + 1] == LF;
      assert whole[i] == CR && whole[i + 1] == LF;
    }
    if HasLfOnly(a, false) {
      var i: nat :| i < |a| && LfOnlyAt(a, false, i);
      assert LfOnlyAt(whole, false, i);
    }
  }

  lemma CrGivesPair(s: string, i: nat)
    requires NoLoneCr(s) && i < |s|
    ensures s[i] == CR ==> HasCrlf(s)
  {
    assert s[i] == CR ==> i < |s| - 1 && s[i + 1] == LF;
  }

  lemma SettledIsCanonical(s: string, target: Eol)
    requires NoLoneCr(s) && Settled(s, target) && (target == Lf || target == Crlf)
    ensures Canonical(s, target) == s
  {
    if target == Lf {
      forall i | 0 <= i < |s| ensures s[i] != CR {
        CrGivesPair(s, i);
      }
      NoCrIsNormal(s);
    } else {
      AllCrlfIsCanonical(s);
    }
  }

  /** What the transform looks at of the text it has read. */
  function Sampled(s: string): string {
    Slice(s, DETECTION_SAMPLE_LIMIT)
  }

  /** After `m` characters the transform takes the text for the target's own style just when the whole text is. */
  predicate Agrees(text: string, m: nat, target: Eol)
    requires m <= |text|
  {
    DetectLineEnding(Sampled(text[..m])) == target <==> DetectLineEnding(text) == target
  }

  /** Conversion to the target would change nothing. */
  predicate AtRest(s: string, target: Eol) {
    NoLoneCr(s) && Settled(s, target)
  }

  /**
   Wherever a chunk may end, what is detected there agrees with the whole text, or nothing read so far needs a change;
   and the two agree at the end if a carriage return is held back there.
   */
  predicate Steady(text: string, target: Eol) {
    && (forall m: nat :: m <= |text| ==> Agrees(text, m, target) || AtRest(Body(text[..m]), target))
    && (EndsInCr(text) ==> Agrees(text, |text|, target))
  }

  /** What converting the whole text makes of one of its parts. */
  function Part(text: string, part: string, target: Eol): string {
    if DetectLineEnding(text) == target then part else Canonical(part, target)
  }

  lemma WholeIsPart(text: string, target: Eol)
    requires target == Lf || target == Crlf
    ensures ConvertLineEndingsString(text, DetectLineEnding(text), target) == Part(text, text, target)
  {
  }

  lemma PartConcat(text: string, a: string, b: string, target: Eol)
    requires CleanCut(a, b)
    ensures Part(text, a + b, target) == Part(text, a, target) + Part(text, b, target)
  {
    CanonicalConcat(a, b, target);
  }

  // ---- The stream

  /** The converter has been given `seen`. */
  predicate Tracks(c: Converter, seen: string) {
    && c.sample == Sampled(seen)
    && c.leftover == (if EndsInCr(seen) then [CR] else "")
    && (c.detected == Some(DetectLineEnding(Sampled(seen))) || (c.detected == None && seen == ""))
  }

  lemma SampledGrows(seen: string, str: string)
    ensures |Sampled(seen)| < DETECTION_SAMPLE_LIMIT ==>
              Sampled(seen + str) == Sampled(seen) + Slice(str, DETECTION_SAMPLE_LIMIT - |Sampled(seen)|)
    ensures |Sampled(seen)| >= DETECTION_SAMPLE_LIMIT ==> Sampled(seen + str) == Sampled(seen)
  {
  }

  lemma DetectingTracks(c: Converter, seen: string, str: string)
    requires Tracks(c, seen)
    ensures
      var d := Detecting(c, str);
      d.sample == Sampled(seen + str) && d.detected == Some(DetectLineEnding(Sampled(seen + str)))
  {
    var before, now := Sampled(seen), Sampled(seen + str);
    SampledGrows(seen, str);
    DetectTells(before);
    DetectTells(now);
    if DetectLineEnding(now) == Lf {
      assert now == before + now[|before|..];
      SettledPrefix(before, now[|before|..], Lf);
    }
  }

  /** The carriage return held back comes first in the next chunk's data. */
  lemma BodyGrows(seen: string, str: string, leftover: string)
    requires leftover == if EndsInCr(seen) then [CR] else ""
    ensures Body(seen + str) == Body(seen) + Body(leftover + str)
    ensures EndsInCr(seen + str) == EndsInCr(leftover + str)
    ensures CleanCut(Body(seen), Body(leftover + str))
  {
    assert seen == Body(seen) + leftover;
    assert seen + str == Body(seen) + (leftover + str);
  }

  lemma ChunkTracks(c: Converter, seen: string, str: string, target: Eol)
    requires Tracks(c, seen) && target != Binary
    ensures Tracks(Transformed(c, str, target).0, seen + str)
    ensures Transformed(c, str, target).1 ==
            ConvertLineEndingsString(Body(c.leftover + str), DetectLineEnding(Sampled(seen + str)), target)
  {
    DetectingTracks(c, seen, str);
    BodyGrows(seen, str, c.leftover);
  }

  lemma NoLoneCrBefore(a: string, b: string)
    requires NoLoneCr(a + b) && CleanCut(a, b)
    ensures NoLoneCr(a)
  {
    forall i | 0 <= i < |a| && a[i] == CR ensures i + 1 < |a| && a[i + 1] == LF {
      var whole := a + b;
      assert whole[i] == CR && whole[i + 1] == LF;
      assert i + 1 < |a| ==> whole[i + 1] == a[i + 1];
    }
  }

  /** A chunk is its own canonical form when its text is settled and has no lone carriage return. */
  lemma SettledChunk(before: string, data: string, target: Eol)
    requires NoLoneCr(before + data) && Settled(before + data, target) && (target == Lf || target == Crlf)
    requires CleanCut(before, data)
    ensures Canonical(data, target) == data
  {
    NoLoneCrBefore(before, data);
    SettledPrefix(before, data, target);
    SettledIsCanonical(before + data, target);
    SettledIsCanonical(before, target);
    CanonicalConcat(before, data, target);
    assert (before + data)[|before|..] == data;
    assert (before + Canonical(data, target))[|before|..] == Canonical(data, target);
  }

  /** Each chunk comes out as converting the whole text makes it. */
  lemma ChunkIsPart(text: string, before: string, data: string, m: nat, target: Eol)
    requires m <= |text| && Body(text[..m]) == before + data && CleanCut(before, data)
    requires target == Lf || target == Crlf
    requires Agrees(text, m, target) || AtRest(Body(text[..m]), target)
    ensures ConvertLineEndingsString(data, DetectLineEnding(Sampled(text[..m])), target) == Part(text, data, target)
  {
    if !Agrees(text, m, target) {
      SettledChunk(before, data, target);
    }
  }

  lemma Associate(a: string, b: string, c: string)
    ensures a + (b + c) == (a + b) + c
  {
  }

  lemma {:induction false} StreamIsPart(text: string, c: Converter, seen: string, chunks: seq<string>, target: Eol)
    requires Tracks(c, seen) && (target == Lf || target == Crlf)
    requires text == seen + Whole(chunks) && Steady(text, target)
    ensures Part(text, Body(seen), target) + Streamed(c, chunks, target) == Part(text, text, target)
    decreases |chunks|
  {
    if chunks == [] {
      assert seen + "" == seen;
      StreamEnds(text, c, target);
    } else {
      var str, rest, more := chunks[0], Whole(chunks[1..]), chunks[1..];
      var data, now := Body(c.leftover + str), seen + str;
      Associate(seen, str, rest);
      assert text == now + rest && text[..|now|] == now;
      ChunkTracks(c, seen, str, target);
      BodyGrows(seen, str, c.leftover);
      ChunkIsPart(text, Body(seen), data, |now|, target);
      PartConcat(text, Body(seen), data, target);
      var step := Transformed(c, str, target);
      StreamIsPart(text, step.0, now, more, target);
      Associate(Part(text, Body(seen), target), step.1, Streamed(step.0, more, target));
    }
  }

  lemma EmptyChunk(text: string, detected: Eol, target: Eol)
    ensures ConvertLineEndingsString("", detected, target) == "" == Part(text, "", target)
  {
  }

  lemma StreamEnds(text: string, c: Converter, target: Eol)
    requires Tracks(c, text) && (target == Lf || target == Crlf)
    requires EndsInCr(text) ==> Agrees(text, |text|, target)
    ensures Part(text, Body(text), target) + FlushOutput(c, target) == Part(text, text, target)
  {
    assert text[..|text|] == text;
    assert text == Body(text) + c.leftover;
    PartConcat(text, Body(text), c.leftover, target);
    if c.leftover == "" {
      EmptyChunk(text, DetectLineEnding(text), target);
    }
  }

  lemma {:induction false} StreamUnchanged(c: Converter, chunks: seq<string>)
    requires c.leftover == ""
    ensures Streamed(c, chunks, Binary) == Whole(chunks)
    decreases |chunks|
  {
    if chunks != [] {
      StreamUnchanged(c, chunks[1..]);
    }
  }

  /** A steady text comes out converted as a whole, however it is divided into chunks. */
  lemma StreamIsWhole(chunks: seq<string>, target: Eol)
    requires target != Mixed && (target == Binary || Steady(Whole(chunks), target))
    ensures Streamed(NEW_CONVERTER, chunks, target) ==
            ConvertLineEndingsString(Whole(chunks), DetectLineEnding(Whole(chunks)), target)
  {
    var text := Whole(chunks);
    if target == Binary {
      StreamUnchanged(NEW_CONVERTER, chunks);
    } else {
      assert "" + text == text;
      StreamIsPart(text, NEW_CONVERTER, "", chunks, target);
      WholeIsPart(text, target);
      EmptyChunk(text, DetectLineEnding(text), target);
    }
  }

  // ---- Texts within the sample

  /** Wherever the text read so far has a lone carriage return, the style detected there and in the whole text agree. */
  predicate SteadyWithin(text: string, target: Eol) {
    forall n :: 0 <= n <= |text| ==>
      NoLoneCr(Body(text[..n])) || (DetectLineEnding(text[..n]) == target <==> DetectLineEnding(text) == target)
  }

  /** Within the sample, a text that the two disagree on needs no change but for lone carriage returns. */
  lemma DisagreeingIsSettled(text: string, m: nat, target: Eol)
    requires m <= |text| && (target == Lf || target == Crlf)
    requires (DetectLineEnding(text[..m]) == target) != (DetectLineEnding(text) == target)
    ensures Settled(Body(text[..m]), target)
  {
    var seen := text[..m];
    DetectTells(seen);
    DetectTells(text);
    assert text == seen + text[m..] && seen == Body(seen) + seen[|Body(seen)|..];
    if DetectLineEnding(text) == target {
      SettledPrefix(seen, text[m..], target);
    }
    SettledPrefix(Body(seen), seen[|Body(seen)|..], target);
  }

  lemma SteadyWithinSample(text: string, target: Eol)
    requires (target == Lf || target == Crlf) && |text| <= DETECTION_SAMPLE_LIMIT
    ensures Steady(text, target) <==> SteadyWithin(text, target)
  {
    assert text[..|text|] == text;
    forall m: nat | m <= |text|
      ensures Agrees(text, m, target) || AtRest(Body(text[..m]), target) <==>
              NoLoneCr(Body(text[..m])) || (DetectLineEnding(text[..m]) == target <==> DetectLineEnding(text) == target)
    {
      assert Sampled(text[..m]) == text[..m];
      if !Agrees(text, m, target) {
        DisagreeingIsSettled(text, m, target);
      }
    }
  }

  /** A text without a lone carriage return, within the sample, is converted the same under any division. */
  lemma NoLoneCrStreamIsWhole(chunks: seq<string>, target: Eol)
    requires target != Mixed && NoLoneCr(Whole(chunks)) && |Whole(chunks)| <= DETECTION_SAMPLE_LIMIT
    ensures Streamed(NEW_CONVERTER, chunks, target) ==
            ConvertLineEndingsString(Whole(chunks), DetectLineEnding(Whole(chunks)), target)
  {
    var text := Whole(chunks);
    forall n | 0 <= n <= |text| ensures NoLoneCr(Body(text[..n])) {
      BodyNoLoneCr(text, n);
    }
    if target != Binary {
      SteadyWithinSample(text, target);
    }
    StreamIsWhole(chunks, target);
  }

  lemma BodyNoLoneCr(text: string, n: nat)
    requires n <= |text| && NoLoneCr(text)
    ensures NoLoneCr(Body(text[..n]))
  {
    var body := Body(text[..n]);
    assert text == body + text[|body|..];
    NoLoneCrBefore(body, text[|body|..]);
  }

  // ---- What the canonical form means

  lemma {:induction false} NormalHasNoCr(s: string)
    ensures forall i :: 0 <= i < |ReplaceCr(s)| ==> ReplaceCr(s)[i] != CR
  {
    if s != "" {
      NormalHasNoCr(s[1..]);
    }
  }

  /** Putting a carriage return before every line feed leaves no other line ending, and can be undone. */
  lemma {:induction false} CrlfForm(s: string)
    requires forall i :: 0 <= i < |s| ==> s[i] != CR
    ensures NoLoneCr(ReplaceLf(s)) && !HasLfOnly(ReplaceLf(s), false)
    ensures ReplaceCrlf(ReplaceLf(s)) == s
  {
    if s != "" {
      var rest := ReplaceLf(s[1..]);
      CrlfForm(s[1..]);
      var first := if s[0] == LF then [CR, LF] else [s[0]];
      var whole := first + rest;
      assert s == [s[0]] + s[1..] && whole[|first|..] == rest;
      forall i | 0 <= i < |whole| && whole[i] == CR ensures i + 1 < |whole| && whole[i + 1] == LF {
        assert i >= |first| ==> rest[i - |first|] == CR;
      }
      if HasLfOnly(whole, false) {
        var i: nat :| i < |whole| && LfOnlyAt(whole, false, i);
        assert i >= |first|;
        assert LfOnlyAt(rest, false, i - |first|);
      }
    }
  }

  /** The canonical form has the target's line endings only, and the same lines as the text. */
  lemma CanonicalMeans(s: string, target: Eol)
    requires target == Lf || target == Crlf
    ensures target == Lf ==> forall i :: 0 <= i < |Canonical(s, target)| ==> Canonical(s, target)[i] != CR
    ensures target == Crlf ==> NoLoneCr(Canonical(s, target)) && !HasLfOnly(Canonical(s, target), false)
    ensures Canonical(Canonical(s, target), Lf) == Canonical(s, Lf)
  {
    var normalized := ReplaceCr(ReplaceCrlf(s));
    NormalHasNoCr(ReplaceCrlf(s));
    NoCrIsNormal(normalized);
    if target == Crlf {
      CrlfForm(normalized);
      NoCrKept(normalized);
    }
  }

  lemma {:induction false} NoCrKept(s: string)
    requires forall i :: 0 <= i < |s| ==> s[i] != CR
    ensures ReplaceCr(s) == s
  {
    if s != "" {
      NoCrKept(s[1..]);
      assert s == [s[0]] + s[1..];
    }
  }

  // ---- Lines, however they end

  /** The lines of a text: a line feed, a carriage return, or the pair of them ends one. */
  function TextLines(s: string): (lines: seq<string>)
    ensures lines != []
  {
    if s == "" then [""]
    else if s[0] == CR && |s| > 1 && s[1] == LF then [""] + TextLines(s[2..])
    else if s[0] == CR || s[0] == LF then [""] + TextLines(s[1..])
    else
      var rest := TextLines(s[1..]);
      [[s[0]] + rest[0]] + rest[1..]
  }

  function WithEndings(lines: seq<string>, ending: string): string
    requires lines != []
  {
    if |lines| == 1 then lines[0] else lines[0] + ending + WithEndings(lines[1..], ending)
  }

  lemma LongerFirstLine(c: char, lines: seq<string>, ending: string)
    requires lines != []
    ensures WithEndings([[c] + lines[0]] + lines[1..], ending) == [c] + WithEndings(lines, ending)
  {
    var longer := [[c] + lines[0]] + lines[1..];
    assert longer[1..] == lines[1..];
    if |lines| > 1 {
      assert [c] + lines[0] + ending + WithEndings(lines[1..], ending)
             == [c] + (lines[0] + ending + WithEndings(lines[1..], ending));
    }
  }

  lemma EmptyFirstLine(lines: seq<string>, ending: string)
    requires lines != []
    ensures WithEndings([""] + lines, ending) == ending + WithEndings(lines, ending)
  {
    assert ([""] + lines)[1..] == lines;
    assert "" + ending == ending;
  }

  lemma {:induction false} NormalIsLines(s: string)
    ensures ReplaceCr(ReplaceCrlf(s)) == WithEndings(TextLines(s), [LF])
  {
    if s != "" {
      var n := StepLength(s);
      NormalIsLines(s[n..]);
      var rest := TextLines(s[n..]);
      assert ReplaceCrlf(s)[1..] == ReplaceCrlf(s[n..]);
      if s[0] == CR || s[0] == LF {
        EmptyFirstLine(rest, [LF]);
      } else {
        LongerFirstLine(s[0], rest, [LF]);
      }
    }
  }

  lemma {:induction false} ReplaceLfInLines(s: string)
    ensures ReplaceLf(WithEndings(TextLines(s), [LF])) == WithEndings(TextLines(s), [CR, LF])
  {
    if s != "" {
      var n := StepLength(s);
      var rest := TextLines(s[n..]);
      var text := WithEndings(rest, [LF]);
      ReplaceLfInLines(s[n..]);
      if s[0] == CR || s[0] == LF {
        EmptyFirstLine(rest, [LF]);
        EmptyFirstLine(rest, [CR, LF]);
        assert ([LF] + text)[1..] == text;
      } else {
        LongerFirstLine(s[0], rest, [LF]);
        LongerFirstLine(s[0], rest, [CR, LF]);
        assert ([s[0]] + text)[1..] == text;
      }
    }
  }

  /**
   What a conversion does to a text, however its lines end: the same lines with the ending asked for. It leaves the
   text alone if that is the ending it is taken to have, if either is binary, or if no one ending is asked for.
   */
  lemma ConvertTells(text: string, fromEol: Eol, toEol: Eol)
    ensures ConvertLineEndingsString(text, fromEol, toEol) ==
            if fromEol == toEol || fromEol == Binary || toEol == Binary || toEol == Mixed then text
            else WithEndings(TextLines(text), if toEol == Crlf then [CR, LF] else [LF])
  {
    NormalIsLines(text);
    ReplaceLfInLines(text);
  }

  /** No line holds any part of a line ending. */
  lemma {:induction false} LinesAreBare(s: string)
    ensures forall line <- TextLines(s) :: CR !in line && LF !in line
  {
    if s != "" {
      var n := StepLength(s);
      LinesAreBare(s[n..]);
    }
  }

  // ---- Exactly when every division gives the same

  lemma RestIsAllCanonical(s: string, target: Eol)
    requires target == Lf || target == Crlf
    ensures Canonical(s, target) == s <==> AtRest(s, target)
  {
    CanonicalMeans(s, target);
    if AtRest(s, target) {
      SettledIsCanonical(s, target);
    }
  }

  lemma RestPrefix(s: string, n: nat, target: Eol)
    requires n <= |s| && AtRest(s, target)
    ensures AtRest(Body(s[..n]), target)
  {
    var body := Body(s[..n]);
    BodyNoLoneCr(s, n);
    assert s == body + s[|body|..];
    SettledPrefix(body, s[|body|..], target);
  }

  lemma TailsCancel(a: string, b: string, tail: string)
    ensures a + tail == b + tail ==> a == b
  {
    assert (a + tail)[..|a|] == a && (b + tail)[..|b|] == b;
    assert a + tail == b + tail ==> |a| == |b|;
  }

  /** A single chunk: its body converted, then what was held back. */
  lemma OneChunk(text: string, target: Eol)
    requires target == Lf || target == Crlf
    ensures Whole([text]) == text
    ensures
      var step := Transformed(NEW_CONVERTER, text, target);
      && Tracks(step.0, text) && Streamed(NEW_CONVERTER, [text], target) == step.1 + FlushOutput(step.0, target)
      && step.1 == ConvertLineEndingsString(Body(text), DetectLineEnding(Sampled(text)), target)
  {
    ChunkTracks(NEW_CONVERTER, "", text, target);
    assert "" + text == text && [text][1..] == [];
    assert Whole([text]) == text + Whole([]);
  }

  lemma TwoChunks(seen: string, rest: string, target: Eol)
    ensures Whole([seen, rest]) == seen + rest
    ensures
      var step := Transformed(NEW_CONVERTER, seen, target);
      Streamed(NEW_CONVERTER, [seen, rest], target) == step.1 + Streamed(step.0, [rest], target)
  {
    assert [seen, rest][1..] == [rest] && [rest][1..] == [];
    assert Whole([rest]) == rest + Whole([]) == rest;
  }

  /** The last chunk and the held-back end come out right when the two agree at the end. */
  lemma SecondChunk(text: string, c: Converter, seen: string, rest: string, target: Eol)
    requires Tracks(c, seen) && text == seen + rest && Agrees(text, |text|, target)
    requires target == Lf || target == Crlf
    ensures Part(text, Body(seen), target) + Streamed(c, [rest], target) == Part(text, text, target)
  {
    var data := Body(c.leftover + rest);
    assert [rest][1..] == [] && text[..|text|] == text;
    ChunkTracks(c, seen, rest, target);
    BodyGrows(seen, rest, c.leftover);
    PartConcat(text, Body(seen), data, target);
    var step := Transformed(c, rest, target);
    assert step.1 == Part(text, data, target);
    StreamEnds(text, step.0, target);
    Associate(Part(text, Body(seen), target), step.1, FlushOutput(step.0, target));
  }

  /** Cut where the two disagree and something needs a change, the first chunk comes out differently from the whole. */
  lemma CutDiffers(text: string, m: nat, target: Eol)
    requires (target == Lf || target == Crlf) && m <= |text| && Agrees(text, |text|, target)
    requires !Agrees(text, m, target) && !AtRest(Body(text[..m]), target)
    ensures Whole([text[..m], text[m..]]) == text
    ensures Streamed(NEW_CONVERTER, [text[..m], text[m..]], target) !=
            ConvertLineEndingsString(text, DetectLineEnding(text), target)
  {
    var seen, rest := text[..m], text[m..];
    assert text == seen + rest;
    TwoChunks(seen, rest, target);
    OneChunk(seen, target);
    var step := Transformed(NEW_CONVERTER, seen, target);
    RestIsAllCanonical(Body(seen), target);
    SecondChunk(text, step.0, seen, rest, target);
    WholeIsPart(text, target);
    TailsCancel(step.1, Part(text, Body(seen), target), Streamed(step.0, [rest], target));
  }

  lemma CanonicalEnds(s: string, target: Eol)
    requires EndsInCr(s) && (target == Lf || target == Crlf)
    ensures EndsInCr(s) && Canonical(s, target) != "" && !EndsInCr(Canonical(s, target))
  {
    assert s == Body(s) + [CR];
    CanonicalConcat(Body(s), [CR], target);
    assert [CR][1..] == "";
    assert ReplaceCrlf([CR]) == [CR] + ReplaceCrlf("") == [CR];
    assert ReplaceCr([CR]) == [LF] + ReplaceCr("") == [LF];
    assert [LF][1..] == "" && ReplaceLf([LF]) == [CR, LF] + ReplaceLf("") == [CR, LF];
    var tail := Canonical([CR], target);
    assert tail != "" && tail[|tail| - 1] == LF;
    assert Canonical(s, target)[|Canonical(s, target)| - 1] == tail[|tail| - 1];
  }

  /** The output for one chunk is the text, converted exactly if the sample is not the target's own style. */
  lemma OppositeOutput(text: string, leftover: string, target: Eol)
    requires (target == Lf || target == Crlf) && text == Body(text) + leftover
    requires leftover == (if EndsInCr(text) then [CR] else "")
    requires Canonical(text, target) == Canonical(Body(text), target) + Canonical(leftover, target)
    ensures
      var c := Transformed(NEW_CONVERTER, text, target);
      c.1 + FlushOutput(c.0, target) ==
      if DetectLineEnding(Sampled(text)) == target then text else Canonical(text, target)
  {
    OneChunk(text, target);
    assert text + "" == text;
  }

  /** As one chunk, a text the two disagree on at its end comes out converted just when the whole does not. */
  lemma EndDiffers(text: string, target: Eol)
    requires (target == Lf || target == Crlf) && !Agrees(text, |text|, target)
    requires EndsInCr(text) || !AtRest(text, target)
    ensures Whole([text]) == text
    ensures Streamed(NEW_CONVERTER, [text], target) != ConvertLineEndingsString(text, DetectLineEnding(text), target)
  {
    assert text[..|text|] == text;
    OneChunk(text, target);
    OneChunkSplits(text, target);
    OppositeOutput(text, if EndsInCr(text) then [CR] else "", target);
    ConvertedDiffers(text, target);
  }

  lemma OneChunkSplits(text: string, target: Eol)
    requires target == Lf || target == Crlf
    ensures
      var leftover := if EndsInCr(text) then [CR] else "";
      text == Body(text) + leftover && Canonical(text, target) == Canonical(Body(text), target) + Canonical(leftover, target)
  {
    var leftover := if EndsInCr(text) then [CR] else "";
    assert text == Body(text) + leftover;
    CanonicalConcat(Body(text), leftover, target);
  }

  /** A text with a carriage return at its end, or not at rest, is changed by the conversion. */
  lemma ConvertedDiffers(text: string, target: Eol)
    requires (target == Lf || target == Crlf) && (EndsInCr(text) || !AtRest(text, target))
    ensures Canonical(text, target) != text
  {
    if EndsInCr(text) {
      CanonicalEnds(text, target);
    } else {
      RestIsAllCanonical(text, target);
    }
  }

  lemma UnsteadyDivides(text: string, target: Eol) returns (chunks: seq<string>)
    requires (target == Lf || target == Crlf) && !Steady(text, target)
    ensures Whole(chunks) == text
    ensures Streamed(NEW_CONVERTER, chunks, target) != ConvertLineEndingsString(text, DetectLineEnding(text), target)
  {
    if Agrees(text, |text|, target) {
      var m: nat :| m <= |text| && !Agrees(text, m, target) && !AtRest(Body(text[..m]), target);
      CutDiffers(text, m, target);
      chunks := [text[..m], text[m..]];
    } else {
      if !EndsInCr(text) {
        var m: nat :| m <= |text| && !Agrees(text, m, target) && !AtRest(Body(text[..m]), target);
        if AtRest(text, target) {
          RestPrefix(text, m, target);
        }
      }
      EndDiffers(text, target);
      chunks := [text];
    }
  }

  lemma SteadyDivides(chunks: seq<string>, text: string, target: Eol)
    requires target != Mixed && target != Binary && Steady(text, target) && Whole(chunks) == text
    ensures Streamed(NEW_CONVERTER, chunks, target) == ConvertLineEndingsString(text, DetectLineEnding(text), target)
  {
    StreamIsWhole(chunks, target);
  }

  /** Every division gives what converting the whole gives. */
  ghost predicate DividesAlike(text: string, target: Eol) {
    forall chunks :: Whole(chunks) == text ==>
      Streamed(NEW_CONVERTER, chunks, target) == ConvertLineEndingsString(text, DetectLineEnding(text), target)
  }

  /** A text of any length is converted the same under every division into chunks exactly when it is steady. */
  lemma EveryDivisionIff(text: string, target: Eol)
    requires target == Lf || target == Crlf
    ensures DividesAlike(text, target) <==> Steady(text, target)
  {
    if Steady(text, target) {
      forall chunks | Whole(chunks) == text
        ensures Streamed(NEW_CONVERTER, chunks, target) == ConvertLineEndingsString(text, DetectLineEnding(text), target)
      {
        SteadyDivides(chunks, text, target);
      }
    } else {
      var _ := UnsteadyDivides(text, target);
    }
  }

  /** Within the sample only lone carriage returns can make a difference. */
  lemma DivisionWithinSampleIff(text: string, target: Eol)
    requires (target == Lf || target == Crlf) && |text| <= DETECTION_SAMPLE_LIMIT
    ensures DividesAlike(text, target) <==> SteadyWithin(text, target)
  {
    EveryDivisionIff(text, target);
    SteadyWithinSample(text, target);
  }

  const PAIR: string := [CR, LF]

  /** A text as long as the sample and without line endings: a pair behind it passes through unchanged. */
  lemma PairPasses(pad: string)
    requires |pad| == DETECTION_SAMPLE_LIMIT && !HasCrlf(pad) && !EndsInCr(pad)
    ensures Streamed(NEW_CONVERTER, [pad, PAIR], Lf) == pad + PAIR
  {
    DetectTells(pad);
    TwoChunks(pad, PAIR, Lf);
    ChunkTracks(NEW_CONVERTER, "", pad, Lf);
    assert "" + pad == pad;
    var step := Transformed(NEW_CONVERTER, pad, Lf);
    assert step.1 == pad && step.0 == Converter(Some(Lf), pad, "");
    LateChunk(step.0, PAIR);
  }

  /** Once the sample is full and says lf, a chunk that does not end in a carriage return is put out as it is. */
  lemma LateChunk(c: Converter, chunk: string)
    requires |c.sample| == DETECTION_SAMPLE_LIMIT && c.detected == Some(Lf) && c.leftover == "" && !EndsInCr(chunk)
    ensures Streamed(c, [chunk], Lf) == chunk
  {
    assert [chunk][1..] == [] && "" + chunk == chunk && chunk + "" == chunk;
    assert Detecting(c, chunk) == c;
    assert Transformed(c, chunk, Lf) == (c, chunk);
  }

  lemma PairConverted(pad: string)
    requires forall i :: 0 <= i < |pad| ==> pad[i] != CR
    ensures ConvertLineEndingsString(pad + PAIR, DetectLineEnding(pad + PAIR), Lf) == pad + [LF]
  {
    var whole := pad + PAIR;
    assert whole[|pad|] == CR && whole[|pad| + 1] == LF;
    DetectTells(whole);
    CanonicalConcat(pad, PAIR, Lf);
    NoCrIsNormal(pad);
    assert PAIR[2..] == "";
    assert ReplaceCrlf(PAIR) == [LF] + ReplaceCrlf("") == [LF];
    NoCrKept([LF]);
  }

  /** Beyond the sample, line endings that first come later are not detected, and kept. */
  lemma LateEndingsAreKept(pad: string)
    requires |pad| == DETECTION_SAMPLE_LIMIT && forall i :: 0 <= i < |pad| ==> pad[i] != CR
    ensures Streamed(NEW_CONVERTER, [pad, PAIR], Lf) == pad + PAIR
    ensures ConvertLineEndingsString(pad + PAIR, DetectLineEnding(pad + PAIR), Lf) == pad + [LF]
  {
    PairPasses(pad);
    PairConverted(pad);
  }
}
