/**
 Workspace paths (src/coordinator/workspace.ts): normalisation of absolute paths
 and the overlap test that decides whether two leases can conflict.
 */
module Workspaces {
  import opened Base

  datatype WorkspaceError = NotAbsolute | EscapesRoot
  datatype Result<+T> = Ok(value: T) | Bad(error: WorkspaceError)

  /** The pieces of a path one character longer at the front. */
  function Grown(c: char, pieces: seq<string>): seq<string>
    requires pieces != []
  {
    if c == '/' then [""] + pieces else [[c] + pieces[0]] + pieces[1..]
  }

  /** The pieces of a path between its slashes; never none. */
  function Split(s: string): (r: seq<string>)
    ensures r != [] && forall part <- r :: '/' !in part
  {
    if s == "" then [""] else Grown(s[0], Split(s[1..]))
  }

  /** The pieces with a slash between any two. */
  function Join(parts: seq<string>): string {
    if parts == [] then ""
    else if |parts| == 1 then parts[0]
    else parts[0] + "/" + Join(parts[1..])
  }

  /** The text of a component list. */
  function Text(parts: seq<string>): string {
    if parts == [] then "/" else "/" + Join(parts)
  }

  predicate IsName(part: string) {
    part != "" && part != "." && part != ".." && '/' !in part
  }

  predicate AreNames(parts: seq<string>) {
    forall part <- parts :: IsName(part)
  }

  /** Following the pieces of a path from the directory `at`; none when it climbs above the root. */
  function Walk(at: seq<string>, pieces: seq<string>): Option<seq<string>>
    decreases |pieces|
  {
    if pieces == [] then Some(at)
    else if pieces[0] == "" || pieces[0] == "." then Walk(at, pieces[1..])
    else if pieces[0] == ".." then if at == [] then None else Walk(at[..|at| - 1], pieces[1..])
    else Walk(at + [pieces[0]], pieces[1..])
  }

  predicate IsAbsolute(value: string) {
    value != "" && value[0] == '/'
  }

  /** The component list an absolute path names. */
  function Components(value: string): Option<seq<string>> {
    if IsAbsolute(value) then Walk([], Split(value)) else None
  }

  function Normalized(value: string): Result<string> {
    if !IsAbsolute(value) then Bad(NotAbsolute)
    else
      match Components(value)
      case None => Bad(EscapesRoot)
      case Some(parts) => Ok(Text(parts))
  }

  method NormalizeWorkspace(value: string) returns (r: Result<string>)
    ensures r == Normalized(value)
  {
    if |value| == 0 || value[0] != '/' {
      return Bad(NotAbsolute);
    }
    var parts: seq<string> := [];
    var pieces := Split(value);
    assert pieces[0..] == pieces;
    for i := 0 to |pieces|
      invariant Walk([], pieces) == Walk(parts, pieces[i..])
    {
      assert pieces[i..][1..] == pieces[i + 1..];
      var part := pieces[i];
      if part == "" || part == "." {
        continue;
      }
      if part == ".." {
        if |parts| == 0 {
          return Bad(EscapesRoot);
        }
        parts := parts[..|parts| - 1];
        continue;
      }
      parts := parts + [part];
    }
    assert pieces[|pieces|..] == [];
    return Ok(if |parts| == 0 then "/" else "/" + Join(parts));
  }

  predicate StartsWith(s: string, prefix: string) {
    prefix <= s
  }

  /** The overlap test on two normalised paths. */
  predicate TextsOverlap(a: string, b: string) {
    a == b || StartsWith(a, b + "/") || StartsWith(b, a + "/")
  }

  /** What the test means: one directory holds the other, except that the root overlaps only itself. */
  predicate Nested(a: seq<string>, b: seq<string>) {
    if a == [] || b == [] then a == b else a <= b || b <= a
  }

  // ---- Splitting and joining

  lemma GrownConcat(c: char, a: seq<string>, b: seq<string>)
    requires a != []
    ensures Grown(c, a + b) == Grown(c, a) + b
  {
    assert (a + b)[0] == a[0] && (a + b)[1..] == a[1..] + b;
  }

  lemma {:induction false} SplitAtSlash(a: string, b: string)
    ensures Split(a + "/" + b) == Split(a) + Split(b)
  {
    var whole := a + "/" + b;
    if a == "" {
      assert whole[1..] == b;
    } else {
      SplitAtSlash(a[1..], b);
      assert whole[1..] == a[1..] + "/" + b;
      GrownConcat(a[0], Split(a[1..]), Split(b));
    }
  }

  lemma {:induction false} SplitName(part: string)
    requires '/' !in part
    ensures Split(part) == [part]
  {
    if part != "" {
      SplitName(part[1..]);
      assert [part[0]] + part[1..] == part;
    }
  }

  /** Splitting undoes joining. */
  lemma {:induction false} SplitJoin(parts: seq<string>)
    requires parts != [] && forall part <- parts :: '/' !in part
    ensures Split(Join(parts)) == parts
  {
    if |parts| == 1 {
      SplitName(parts[0]);
    } else {
      SplitJoin(parts[1..]);
      SplitAtSlash(parts[0], Join(parts[1..]));
      SplitName(parts[0]);
      assert [parts[0]] + parts[1..] == parts;
    }
  }

  /** Joining undoes splitting. */
  lemma {:induction false} JoinSplit(s: string)
    ensures Join(Split(s)) == s
  {
    if s != "" {
      var rest := Split(s[1..]);
      JoinSplit(s[1..]);
      if s[0] == '/' {
        assert ([""] + rest)[1..] == rest;
        assert "" + "/" + Join(rest) == s;
      } else if |rest| == 1 {
        assert [s[0]] + s[1..] == s;
      } else {
        assert ([[s[0]] + rest[0]] + rest[1..])[1..] == rest[1..];
        assert ([s[0]] + rest[0]) + "/" + Join(rest[1..]) == [s[0]] + (rest[0] + "/" + Join(rest[1..])) == s;
      }
    }
  }

  lemma SplitText(parts: seq<string>)
    requires AreNames(parts) && parts != []
    ensures Split(Text(parts)) == [""] + parts
  {
    SplitJoin(parts);
    assert Text(parts) == "" + "/" + Join(parts);
    SplitAtSlash("", Join(parts));
  }

  /** Different component lists have different texts. */
  lemma TextInjective(a: seq<string>, b: seq<string>)
    requires AreNames(a) && AreNames(b) && Text(a) == Text(b)
    ensures a == b
  {
    if a != [] && b != [] {
      SplitText(a);
      SplitText(b);
      assert ([""] + a)[1..] == a && ([""] + b)[1..] == b;
    } else {
      if a != [] { TextLong(a); }
      if b != [] { TextLong(b); }
    }
  }

  lemma TextLong(parts: seq<string>)
    requires AreNames(parts) && parts != []
    ensures |Text(parts)| > 1
  {
    assert parts[0] in parts;
  }

  // ---- Walking

  lemma {:induction false} WalkConcat(at: seq<string>, a: seq<string>, b: seq<string>)
    ensures Walk(at, a + b) == match Walk(at, a) case None => None case Some(mid) => Walk(mid, b)
    decreases |a|
  {
    if a == [] {
      assert a + b == b;
    } else {
      assert (a + b)[1..] == a[1..] + b;
      if a[0] == "" || a[0] == "." {
        WalkConcat(at, a[1..], b);
      } else if a[0] == ".." {
        if at != [] {
          WalkConcat(at[..|at| - 1], a[1..], b);
        }
      } else {
        WalkConcat(at + [a[0]], a[1..], b);
      }
    }
  }

  lemma {:induction false} WalkNames(at: seq<string>, names: seq<string>)
    requires AreNames(names)
    ensures Walk(at, names) == Some(at + names)
    decreases |names|
  {
    if names == [] {
      assert at + names == at;
    } else {
      assert IsName(names[0]);
      WalkNames(at + [names[0]], names[1..]);
      assert at + [names[0]] + names[1..] == at + names;
    }
  }

  lemma {:induction false} WalkGivesNames(at: seq<string>, pieces: seq<string>)
    requires AreNames(at) && (forall piece <- pieces :: '/' !in piece)
    ensures Walk(at, pieces).Some? ==> AreNames(Walk(at, pieces).value)
    decreases |pieces|
  {
    if pieces != [] {
      assert pieces[0] in pieces;
      if pieces[0] == "" || pieces[0] == "." {
        WalkGivesNames(at, pieces[1..]);
      } else if pieces[0] == ".." {
        if at != [] {
          WalkGivesNames(at[..|at| - 1], pieces[1..]);
        }
      } else {
        WalkGivesNames(at + [pieces[0]], pieces[1..]);
      }
    }
  }

  lemma ComponentsAreNames(value: string)
    ensures Components(value).Some? ==> AreNames(Components(value).value)
  {
    if IsAbsolute(value) {
      WalkGivesNames([], Split(value));
    }
  }

  lemma ComponentsOfText(parts: seq<string>)
    requires AreNames(parts)
    ensures Components(Text(parts)) == Some(parts)
  {
    if parts == [] {
      assert "" + "/" + "" == "/";
      SplitAtSlash("", "");
      assert Walk([], ["", ""]) == Walk([], [""]) == Walk([], []);
    } else {
      SplitText(parts);
      assert ([""] + parts)[1..] == parts;
      WalkNames([], parts);
      assert [] + parts == parts;
    }
  }

  // ---- What normalisation promises

  /** A normalised path names the same directory as the original, and normalising it again changes nothing. */
  lemma NormalizeIdempotent(value: string)
    requires Normalized(value).Ok?
    ensures Components(Normalized(value).value) == Components(value)
    ensures Normalized(Normalized(value).value) == Normalized(value)
  {
    ComponentsAreNames(value);
    ComponentsOfText(Components(value).value);
  }

  /** Two paths normalise to the same text exactly when they name the same directory. */
  lemma SameTextSameDirectory(a: string, b: string)
    requires Normalized(a).Ok? && Normalized(b).Ok?
    ensures Normalized(a) == Normalized(b) <==> Components(a) == Components(b)
  {
    ComponentsAreNames(a);
    ComponentsAreNames(b);
    if Normalized(a) == Normalized(b) {
      TextInjective(Components(a).value, Components(b).value);
    }
  }

  /** A path extended by a relative one is that one followed from where the first leads. */
  lemma ExtendedPath(base: string, relative: string)
    requires IsAbsolute(base)
    ensures Components(base + "/" + relative) ==
            match Components(base) case None => None case Some(at) => Walk(at, Split(relative))
  {
    SplitAtSlash(base, relative);
    WalkConcat([], Split(base), Split(relative));
  }

  /** Entering a directory and leaving it again is no move at all. */
  lemma ParentUndoesName(base: string, name: string)
    requires IsAbsolute(base) && IsName(name)
    ensures Normalized(base + "/" + (name + "/" + "..")) == Normalized(base)
  {
    ExtendedPath(base, name + "/" + "..");
    SplitAtSlash(name, "..");
    SplitName(name);
    SplitName("..");
    if Components(base).Some? {
      var at := Components(base).value;
      assert [name] + [".."] == [name, ".."];
      assert [name, ".."][1..] == [".."] && [".."][1..] == [];
      assert (at + [name])[..|at + [name]| - 1] == at;
      assert Walk(at + [name], [".."]) == Walk(at, []);
      assert Walk(at, [name, ".."]) == Walk(at + [name], [".."]);
    }
  }

  /** The path of the root, however many slashes and dots it is written with, is the root. */
  lemma RootIsItself()
    ensures Components("/") == Some([]) && Normalized("/") == Ok("/")
    ensures Normalized("/.") == Ok("/") && Normalized("//") == Ok("/")
  {
    ComponentsOfText([]);
    assert "/" + "/" == "//" && "" + "/" + "." == "/.";
    ExtendedPath("/", "");
    SplitAtSlash("", ".");
    SplitName(".");
    assert Walk([], ["", "."]) == Walk([], ["."]) == Walk([], []);
  }

  /** A single dot and an empty piece are no move: at the end of a path and in the middle of one. */
  lemma DotStays(base: string, rest: string)
    requires IsAbsolute(base)
    ensures Normalized(base + "/" + ".") == Normalized(base)
    ensures Normalized(base + "/" + "") == Normalized(base)
    ensures Normalized(base + "/" + ("." + "/" + rest)) == Normalized(base + "/" + rest)
    ensures Normalized(base + "/" + ("" + "/" + rest)) == Normalized(base + "/" + rest)
  {
    StayingPiece(base, "", rest);
    StayingPiece(base, ".", rest);
  }

  lemma StayingPiece(base: string, piece: string, rest: string)
    requires IsAbsolute(base) && (piece == "" || piece == ".")
    ensures Normalized(base + "/" + piece) == Normalized(base)
    ensures Normalized(base + "/" + (piece + "/" + rest)) == Normalized(base + "/" + rest)
  {
    SplitName(piece);
    ExtendedPath(base, piece);
    SplitAtSlash(piece, rest);
    ExtendedPath(base, piece + "/" + rest);
    ExtendedPath(base, rest);
    if Components(base).Some? {
      var at := Components(base).value;
      assert [piece][1..] == [] && ([piece] + Split(rest))[1..] == Split(rest);
      assert Walk(at, [piece]) == Walk(at, []) == Some(at);
    }
  }

  /** A name goes behind the components of the path before it, and so behind its normal form. */
  lemma NameEnters(base: string, name: string)
    requires IsName(name) && Components(base).Some?
    ensures Components(base + "/" + name) == Some(Components(base).value + [name])
    ensures
      var at := Normalized(base).value;
      Normalized(base + "/" + name) == Ok(if at == "/" then "/" + name else at + "/" + name)
  {
    var at := Components(base).value;
    ExtendedPath(base, name);
    SplitName(name);
    assert [name][1..] == [];
    assert Walk(at, [name]) == Walk(at + [name], []) == Some(at + [name]);
    if at == [] {
      assert [] + [name] == [name];
    } else {
      ComponentsAreNames(base);
      TextLong(at);
      JoinConcat(at, [name]);
      assert "/" + (Join(at) + "/" + name) == "/" + Join(at) + "/" + name;
    }
  }

  /** Two dots leave the last directory, and are refused at the root. */
  lemma ParentLeaves(base: string)
    requires Components(base).Some?
    ensures
      var at := Components(base).value;
      && Components(base + "/" + "..") == (if at == [] then None else Some(at[..|at| - 1]))
      && (at == [] ==> Normalized(base + "/" + "..") == Bad(EscapesRoot))
  {
    var at := Components(base).value;
    ExtendedPath(base, "..");
    SplitName("..");
    assert [".."][1..] == [];
    if at != [] {
      assert Walk(at, [".."]) == Walk(at[..|at| - 1], []) == Some(at[..|at| - 1]);
    }
  }

  /** How many of the pieces are two dots. */
  function Climbs(pieces: seq<string>): nat {
    if pieces == [] then 0 else (if pieces[0] == ".." then 1 else 0) + Climbs(pieces[1..])
  }

  /** How many of the pieces are names. */
  function Enters(pieces: seq<string>): nat {
    if pieces == [] then 0
    else (if pieces[0] != "" && pieces[0] != "." && pieces[0] != ".." then 1 else 0) + Enters(pieces[1..])
  }

  /** Somewhere along the pieces more directories have been left than entered, with `depth` of them to begin with. */
  ghost predicate LeavesRoot(pieces: seq<string>, depth: nat) {
    exists n: nat :: n <= |pieces| && Climbs(pieces[..n]) > depth + Enters(pieces[..n])
  }

  lemma PrefixCounts(pieces: seq<string>, n: nat)
    requires 0 < n <= |pieces|
    ensures Climbs(pieces[..n]) == (if pieces[0] == ".." then 1 else 0) + Climbs(pieces[1..][..n - 1])
    ensures Enters(pieces[..n]) ==
            (if pieces[0] != "" && pieces[0] != "." && pieces[0] != ".." then 1 else 0) + Enters(pieces[1..][..n - 1])
  {
    assert pieces[..n][1..] == pieces[1..][..n - 1];
  }

  /** One piece further, with as many directories more or less to leave. */
  lemma LeavesRootStep(pieces: seq<string>, depth: nat, next: int)
    requires pieces != []
    requires next == depth + (if pieces[0] == ".." then -1 else if pieces[0] == "" || pieces[0] == "." then 0 else 1)
    ensures LeavesRoot(pieces, depth) <==> next < 0 || LeavesRoot(pieces[1..], next)
  {
    var rest := pieces[1..];
    PrefixCounts(pieces, 1);
    assert rest[..0] == [] && pieces[..0] == [];
    if LeavesRoot(pieces, depth) && next >= 0 {
      var n: nat :| n <= |pieces| && Climbs(pieces[..n]) > depth + Enters(pieces[..n]);
      PrefixCounts(pieces, n);
      assert Climbs(rest[..n - 1]) > next + Enters(rest[..n - 1]);
    }
    if next < 0 {
      assert Climbs(pieces[..1]) > depth + Enters(pieces[..1]);
    } else if LeavesRoot(rest, next) {
      var n: nat :| n <= |rest| && Climbs(rest[..n]) > next + Enters(rest[..n]);
      PrefixCounts(pieces, n + 1);
      assert Climbs(pieces[..n + 1]) > depth + Enters(pieces[..n + 1]);
    }
  }

  lemma {:induction false} WalkFailsIff(at: seq<string>, pieces: seq<string>)
    ensures Walk(at, pieces) == None <==> LeavesRoot(pieces, |at|)
    decreases |pieces|
  {
    if pieces == [] {
      assert forall n: nat :: n <= |pieces| ==> pieces[..n] == [];
    } else if pieces[0] == "" || pieces[0] == "." {
      LeavesRootStep(pieces, |at|, |at|);
      WalkFailsIff(at, pieces[1..]);
    } else if pieces[0] == ".." {
      LeavesRootStep(pieces, |at|, |at| - 1);
      if at != [] {
        WalkFailsIff(at[..|at| - 1], pieces[1..]);
      }
    } else {
      LeavesRootStep(pieces, |at|, |at| + 1);
      WalkFailsIff(at + [pieces[0]], pieces[1..]);
    }
  }

  /**
   Which paths are refused, and why: one that does not begin with a slash is not absolute, and any other leaves the
   root exactly if some part of it from the front has more double dots than names.
   */
  lemma RefusedIff(value: string)
    ensures Normalized(value) == Bad(NotAbsolute) <==> value == "" || value[0] != '/'
    ensures Normalized(value) == Bad(EscapesRoot) <==>
              value != "" && value[0] == '/' && LeavesRoot(Split(value), 0)
  {
    var none: seq<string> := [];
    WalkFailsIff(none, Split(value));
  }

  // ---- What the overlap test means

  lemma {:induction false} JoinConcat(a: seq<string>, b: seq<string>)
    requires a != [] && b != []
    ensures Join(a + b) == Join(a) + "/" + Join(b)
  {
    if |a| == 1 {
      assert (a + b)[1..] == b;
    } else {
      JoinConcat(a[1..], b);
      assert (a + b)[1..] == a[1..] + b;
      assert a[0] + "/" + (Join(a[1..]) + "/" + Join(b)) == (a[0] + "/" + Join(a[1..])) + "/" + Join(b);
    }
  }

  /** A text that goes on after another and a slash names something inside. */
  lemma InsideOnlyIf(outer: seq<string>, inner: seq<string>, tail: string)
    requires AreNames(outer) && AreNames(inner) && outer != [] && inner != []
    requires Text(inner) == Text(outer) + "/" + tail
    ensures outer < inner
  {
    SplitAtSlash(Text(outer), tail);
    SplitText(outer);
    SplitText(inner);
    PrefixBehindFirst("", outer, inner, Split(tail));
  }

  lemma PrefixBehindFirst(first: string, outer: seq<string>, inner: seq<string>, more: seq<string>)
    requires [first] + inner == [first] + outer + more && more != []
    ensures outer < inner
  {
    assert inner == ([first] + inner)[1..] == ([first] + outer + more)[1..] == outer + more;
  }

  lemma InsideIf(outer: seq<string>, rest: seq<string>)
    requires outer != [] && rest != []
    ensures Text(outer + rest) == Text(outer) + "/" + Join(rest)
  {
    JoinConcat(outer, rest);
    assert "/" + (Join(outer) + "/" + Join(rest)) == "/" + Join(outer) + "/" + Join(rest);
  }

  /** A text goes on after another and a slash exactly when it names something inside. */
  lemma InsideIsPrefix(outer: seq<string>, inner: seq<string>)
    requires AreNames(outer) && AreNames(inner) && outer != []
    ensures StartsWith(Text(inner), Text(outer) + "/") <==> outer < inner
  {
    var lead := Text(outer) + "/";
    if inner == [] {
      assert |Text(inner)| == 1 && |lead| > 1;
    } else if StartsWith(Text(inner), lead) {
      var tail := Text(inner)[|lead|..];
      assert Text(inner) == lead + tail;
      InsideOnlyIf(outer, inner, tail);
    } else if outer < inner {
      assert inner == outer + inner[|outer|..];
      InsideIf(outer, inner[|outer|..]);
    }
  }

  lemma NothingInsideRoot(inner: seq<string>)
    requires AreNames(inner)
    ensures !StartsWith(Text(inner), Text([]) + "/")
  {
    assert Text([]) + "/" == "//";
    if inner != [] {
      assert inner[0] in inner;
      assert Join(inner)[0] == inner[0][0] && inner[0][0] in inner[0];
      assert Text(inner)[1] == Join(inner)[0];
    }
  }

  /** The textual overlap test decides nesting of the directories. */
  lemma OverlapIsNesting(a: seq<string>, b: seq<string>)
    requires AreNames(a) && AreNames(b)
    ensures TextsOverlap(Text(a), Text(b)) <==> Nested(a, b)
  {
    if Text(a) == Text(b) {
      TextInjective(a, b);
    }
    if |a| == |b| && (a <= b || b <= a) {
      assert a == b;
    }
    if a == [] { NothingInsideRoot(b); } else { InsideIsPrefix(a, b); }
    if b == [] { NothingInsideRoot(a); } else { InsideIsPrefix(b, a); }
  }

  /** Whether two workspaces overlap; both paths are normalised first, and either may be refused. */
  method WorkspacesOverlap(left: string, right: string) returns (r: Result<bool>)
    ensures r.Ok? <==> Normalized(left).Ok? && Normalized(right).Ok?
    ensures r.Ok? ==> r.value == Nested(Components(left).value, Components(right).value)
    ensures r.Bad? ==> r.error == if Normalized(left).Bad? then Normalized(left).error else Normalized(right).error
  {
    var a := NormalizeWorkspace(left);
    if a.Bad? {
      return Bad(a.error);
    }
    var b := NormalizeWorkspace(right);
    if b.Bad? {
      return Bad(b.error);
    }
    ComponentsAreNames(left);
    ComponentsAreNames(right);
    OverlapIsNesting(Components(left).value, Components(right).value);
    return Ok(a.value == b.value || StartsWith(a.value, b.value + "/") || StartsWith(b.value, a.value + "/"));
  }
}
