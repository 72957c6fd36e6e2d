/**
 SSH configuration (src/ssh-config.ts): which settings a host name gets, and the
 depth-first resolution of its ProxyJump hosts into a connection chain.
 */
module SshConfigs {
  import opened Base

  datatype HostEntry = HostEntry(
    hostPattern: string, hostName: Option<string>, user: Option<string>, port: Option<int>,
    identityFile: Option<seq<string>>, proxyJump: Option<seq<string>>,
    forwardAgent: Option<bool>, identityAgent: Option<string>)

  const NO_SETTINGS: HostEntry := HostEntry("", None, None, None, None, None, None, None)

  /** One host of a connection chain. The key is the first identity file named; reading it is left to the caller. */
  datatype Hop = Hop(
    id: nat, name: string, host: string, port: int, username: string,
    identityFile: Option<string>, agent: Option<string>, agentForward: Option<bool>)

  function Lower(c: char): char {
    if 'A' <= c <= 'Z' then c + ('a' - 'A') else c
  }

  /** A pattern with stars and question marks, case-insensitively. */
  predicate MatchHost(pattern: string, hostname: string)
    decreases |pattern| + |hostname|
  {
    if pattern == "" then hostname == ""
    else if pattern[0] == '*' then
      MatchHost(pattern[1..], hostname) || (hostname != "" && MatchHost(pattern, hostname[1..]))
    else hostname != "" && (pattern[0] == '?' || Lower(pattern[0]) == Lower(hostname[0])) && MatchHost(pattern[1..], hostname[1..])
  }

  function Matching(entries: seq<HostEntry>, hostname: string): seq<HostEntry> {
    if entries == [] then []
    else (if MatchHost(entries[0].hostPattern, hostname) then [entries[0]] else []) + Matching(entries[1..], hostname)
  }

  function Or<T>(later: Option<T>, earlier: Option<T>): Option<T> {
    if later.Some? then later else earlier
  }

  /** Settings given later replace those given earlier, one by one. */
  function Over(earlier: HostEntry, later: HostEntry): HostEntry {
    HostEntry(
      earlier.hostPattern, Or(later.hostName, earlier.hostName), Or(later.user, earlier.user),
      Or(later.port, earlier.port), Or(later.identityFile, earlier.identityFile),
      Or(later.proxyJump, earlier.proxyJump), Or(later.forwardAgent, earlier.forwardAgent),
      Or(later.identityAgent, earlier.identityAgent))
  }

  function Merged(entries: seq<HostEntry>): HostEntry {
    if entries == [] then NO_SETTINGS
    else Over(Merged(entries[..|entries| - 1]), entries[|entries| - 1])
  }

  method MergeEntries(entries: seq<HostEntry>) returns (merged: HostEntry)
    ensures merged == Merged(entries)
  {
    merged := NO_SETTINGS;
    for i := 0 to |entries|
      invariant merged == Merged(entries[..i])
    {
      var entry := entries[i];
      assert entries[..i + 1][..i] == entries[..i];
      if entry.hostName.Some? { merged := merged.(hostName := entry.hostName); }
      if entry.user.Some? { merged := merged.(user := entry.user); }
      if entry.port.Some? { merged := merged.(port := entry.port); }
      if entry.identityFile.Some? { merged := merged.(identityFile := entry.identityFile); }
      if entry.proxyJump.Some? { merged := merged.(proxyJump := entry.proxyJump); }
      if entry.forwardAgent.Some? { merged := merged.(forwardAgent := entry.forwardAgent); }
      if entry.identityAgent.Some? { merged := merged.(identityAgent := entry.identityAgent); }
    }
    assert entries[..|entries|] == entries;
  }

  /** The later settings of a list of entries override all of the earlier ones together. */
  lemma {:induction false} MergedConcat(a: seq<HostEntry>, b: seq<HostEntry>)
    ensures Merged(a + b) == Over(Merged(a), Merged(b))
  {
    if b == [] {
      assert a + b == a;
    } else {
      var init, last := b[..|b| - 1], b[|b| - 1];
      MergedConcat(a, init);
      assert (a + b)[..|a + b| - 1] == a + init;
    }
  }

  /** A setting keeps the value of the last entry that gives it one. */
  lemma LastSettingWins(before: seq<HostEntry>, entry: HostEntry, after: seq<HostEntry>)
    ensures
      var merged, later := Merged(before + [entry] + after), Merged(after);
      && (entry.hostName.Some? && later.hostName == None ==> merged.hostName == entry.hostName)
      && (entry.user.Some? && later.user == None ==> merged.user == entry.user)
      && (entry.port.Some? && later.port == None ==> merged.port == entry.port)
      && (entry.identityFile.Some? && later.identityFile == None ==> merged.identityFile == entry.identityFile)
      && (entry.proxyJump.Some? && later.proxyJump == None ==> merged.proxyJump == entry.proxyJump)
      && (entry.forwardAgent.Some? && later.forwardAgent == None ==> merged.forwardAgent == entry.forwardAgent)
      && (entry.identityAgent.Some? && later.identityAgent == None ==> merged.identityAgent == entry.identityAgent)
  {
    MergedConcat(before + [entry], after);
    MergedConcat(before, [entry]);
    assert Merged([entry]) == Over(Merged([]), entry);
  }

  lemma OneMoreEntry(entries: seq<HostEntry>)
    requires entries != []
    ensures forall e :: e in entries <==> e in entries[..|entries| - 1] || e == entries[|entries| - 1]
  {
    assert entries == entries[..|entries| - 1] + [entries[|entries| - 1]];
  }

  /** Nothing is set that no entry sets. */
  lemma {:induction false} UnsetStaysUnset(entries: seq<HostEntry>)
    ensures
      var merged := Merged(entries);
      && (merged.hostName == None <==> forall e <- entries :: e.hostName == None)
      && (merged.user == None <==> forall e <- entries :: e.user == None)
      && (merged.port == None <==> forall e <- entries :: e.port == None)
      && (merged.identityFile == None <==> forall e <- entries :: e.identityFile == None)
      && (merged.proxyJump == None <==> forall e <- entries :: e.proxyJump == None)
      && (merged.forwardAgent == None <==> forall e <- entries :: e.forwardAgent == None)
      && (merged.identityAgent == None <==> forall e <- entries :: e.identityAgent == None)
  {
    if entries != [] {
      var init, last := entries[..|entries| - 1], entries[|entries| - 1];
      UnsetStaysUnset(init);
      OneMoreEntry(entries);
    }
  }

  /** The same character, or the same letter in the other case. */
  predicate SameLetter(a: char, b: char) {
    || a == b
    || ('A' <= a <= 'Z' && b as int == a as int + 32)
    || ('A' <= b <= 'Z' && a as int == b as int + 32)
  }

  predicate SameLetters(a: string, b: string) {
    |a| == |b| && forall i :: 0 <= i < |a| ==> SameLetter(a[i], b[i])
  }

  lemma LowerTells(a: char, b: char)
    ensures Lower(a) == Lower(b) <==> SameLetter(a, b)
  {
  }

  /** A pattern without wildcards matches its own letters only, in either case. */
  lemma {:induction false} LiteralMatches(pattern: string, hostname: string)
    requires '*' !in pattern && '?' !in pattern
    ensures MatchHost(pattern, hostname) <==> SameLetters(pattern, hostname)
  {
    if pattern != "" && hostname != "" {
      LiteralMatches(pattern[1..], hostname[1..]);
      var rest, more := pattern[1..], hostname[1..];
      assert pattern == [pattern[0]] + rest && hostname == [hostname[0]] + more;
      LowerTells(pattern[0], hostname[0]);
      assert SameLetters(pattern, hostname) <==> SameLetter(pattern[0], hostname[0]) && SameLetters(rest, more);
    }
  }

  /** A star stands for any text in its place. */
  lemma {:induction false} StarMatches(rest: string, hostname: string)
    ensures MatchHost("*" + rest, hostname) <==> exists n :: 0 <= n <= |hostname| && MatchHost(rest, hostname[n..])
    decreases |hostname|
  {
    var pattern := "*" + rest;
    assert pattern[1..] == rest && hostname[0..] == hostname;
    if hostname != "" {
      StarMatches(rest, hostname[1..]);
      if exists n :: 0 <= n <= |hostname[1..]| && MatchHost(rest, hostname[1..][n..]) {
        var n :| 0 <= n <= |hostname[1..]| && MatchHost(rest, hostname[1..][n..]);
        assert hostname[1..][n..] == hostname[n + 1..];
      }
      if exists n :: 0 < n <= |hostname| && MatchHost(rest, hostname[n..]) {
        var n :| 0 < n <= |hostname| && MatchHost(rest, hostname[n..]);
        assert hostname[1..][n - 1..] == hostname[n..];
      }
    }
  }

  function Settings(entries: seq<HostEntry>, hostname: string): HostEntry {
    Merged(Matching(entries, hostname))
  }

  /** The jump hosts a name is configured with, "none" left out. */
  function JumpList(entries: seq<HostEntry>, hostname: string): seq<string> {
    var jumps := Settings(entries, hostname).proxyJump;
    if jumps == None then [] else jumps.value
  }

  /** The configuration sends connections to `a` through `b`. */
  predicate Jumps(entries: seq<HostEntry>, a: string, b: string) {
    b in JumpList(entries, a) && b != "none"
  }

  /** Every jump name written anywhere. */
  function JumpNames(entries: seq<HostEntry>): set<string> {
    set e, j | e in entries && e.proxyJump.Some? && j in e.proxyJump.value :: j
  }

  lemma {:induction false} MergedJumpIsWritten(entries: seq<HostEntry>, j: string)
    requires Merged(entries).proxyJump.Some? && j in Merged(entries).proxyJump.value
    ensures j in JumpNames(entries)
  {
    if entries != [] {
      var last := entries[|entries| - 1];
      if last.proxyJump == None {
        MergedJumpIsWritten(entries[..|entries| - 1], j);
      }
    }
  }

  lemma MatchingAreEntries(entries: seq<HostEntry>, hostname: string)
    ensures forall e <- Matching(entries, hostname) :: e in entries
  {
  }

  lemma JumpsAreWritten(entries: seq<HostEntry>, hostname: string)
    ensures forall j <- JumpList(entries, hostname) :: j in JumpNames(entries)
  {
    forall j | j in JumpList(entries, hostname) ensures j in JumpNames(entries) {
      MergedJumpIsWritten(Matching(entries, hostname), j);
      MatchingAreEntries(entries, hostname);
    }
  }

  function HopFor(entries: seq<HostEntry>, hostname: string, id: nat): Hop {
    var cfg := Settings(entries, hostname);
    Hop(
      id, hostname,
      if cfg.hostName.Some? then cfg.hostName.value else hostname,
      if cfg.port.Some? then cfg.port.value else 22,
      if cfg.user.Some? then cfg.user.value else "root",
      if cfg.identityFile.Some? && cfg.identityFile.value != [] then Some(cfg.identityFile.value[0]) else None,
      cfg.identityAgent, cfg.forwardAgent)
  }

  // ---- Which entries a host is described by

  lemma {:induction false} MatchingConcat(a: seq<HostEntry>, b: seq<HostEntry>, hostname: string)
    ensures Matching(a + b, hostname) == Matching(a, hostname) + Matching(b, hostname)
  {
    if a == [] {
      assert a + b == b;
    } else {
      MatchingConcat(a[1..], b, hostname);
      assert (a + b)[0] == a[0] && (a + b)[1..] == a[1..] + b;
      var first := if MatchHost(a[0].hostPattern, hostname) then [a[0]] else [];
      assert first + (Matching(a[1..], hostname) + Matching(b, hostname)) == Matching(a, hostname) + Matching(b, hostname);
    }
  }

  lemma {:induction false} MatchingIff(entries: seq<HostEntry>, hostname: string, e: HostEntry)
    ensures e in Matching(entries, hostname) <==> e in entries && MatchHost(e.hostPattern, hostname)
  {
    if entries != [] {
      MatchingIff(entries[1..], hostname, e);
      assert e in entries <==> e == entries[0] || e in entries[1..];
    }
  }

  /** A question mark stands for any one character. */
  lemma QuestionMatches(rest: string, hostname: string)
    ensures MatchHost("?" + rest, hostname) <==> hostname != "" && MatchHost(rest, hostname[1..])
  {
    assert ("?" + rest)[1..] == rest;
  }

  /** No matching entry gives the host any of its settings. */
  lemma UnsetInMatching(entries: seq<HostEntry>, hostname: string)
    ensures
      var cfg := Settings(entries, hostname);
      && (cfg.hostName == None <==> forall e <- entries :: MatchHost(e.hostPattern, hostname) ==> e.hostName == None)
      && (cfg.user == None <==> forall e <- entries :: MatchHost(e.hostPattern, hostname) ==> e.user == None)
      && (cfg.port == None <==> forall e <- entries :: MatchHost(e.hostPattern, hostname) ==> e.port == None)
      && (cfg.identityFile == None <==> forall e <- entries :: MatchHost(e.hostPattern, hostname) ==> e.identityFile == None)
      && (cfg.proxyJump == None <==> forall e <- entries :: MatchHost(e.hostPattern, hostname) ==> e.proxyJump == None)
      && (cfg.forwardAgent == None <==> forall e <- entries :: MatchHost(e.hostPattern, hostname) ==> e.forwardAgent == None)
      && (cfg.identityAgent == None <==> forall e <- entries :: MatchHost(e.hostPattern, hostname) ==> e.identityAgent == None)
  {
    UnsetStaysUnset(Matching(entries, hostname));
    forall e ensures e in Matching(entries, hostname) <==> e in entries && MatchHost(e.hostPattern, hostname) {
      MatchingIff(entries, hostname, e);
    }
  }

  /** What a host gets when nothing that matches it says otherwise. */
  lemma HopDefaults(entries: seq<HostEntry>, name: string, id: nat)
    ensures
      var hop := HopFor(entries, name, id);
      && hop.id == id && hop.name == name
      && ((forall e <- entries :: MatchHost(e.hostPattern, name) ==> e.hostName == None) ==> hop.host == name)
      && ((forall e <- entries :: MatchHost(e.hostPattern, name) ==> e.port == None) ==> hop.port == 22)
      && ((forall e <- entries :: MatchHost(e.hostPattern, name) ==> e.user == None) ==> hop.username == "root")
      && ((forall e <- entries :: MatchHost(e.hostPattern, name) ==> e.identityFile == None) ==> hop.identityFile == None)
      && ((forall e <- entries :: MatchHost(e.hostPattern, name) ==> e.identityAgent == None) ==> hop.agent == None)
      && ((forall e <- entries :: MatchHost(e.hostPattern, name) ==> e.forwardAgent == None) ==> hop.agentForward == None)
      && ((forall e <- entries :: MatchHost(e.hostPattern, name) ==> e.proxyJump == None) ==> JumpList(entries, name) == [])
  {
    UnsetInMatching(entries, name);
  }

  lemma MatchingSplit(before: seq<HostEntry>, entry: HostEntry, after: seq<HostEntry>, name: string)
    requires MatchHost(entry.hostPattern, name)
    ensures Matching(before + [entry] + after, name) == Matching(before, name) + [entry] + Matching(after, name)
  {
    MatchingConcat(before + [entry], after, name);
    MatchingConcat(before, [entry], name);
    assert Matching([entry], name) == [entry] + Matching([], name);
  }

  /** A host gets each setting from the last entry that matches it and gives one; of several key files, the first. */
  lemma HopTakesLast(before: seq<HostEntry>, entry: HostEntry, after: seq<HostEntry>, name: string, id: nat)
    requires MatchHost(entry.hostPattern, name)
    ensures
      var hop, later := HopFor(before + [entry] + after, name, id), Settings(after, name);
      && (entry.hostName.Some? && later.hostName == None ==> hop.host == entry.hostName.value)
      && (entry.port.Some? && later.port == None ==> hop.port == entry.port.value)
      && (entry.user.Some? && later.user == None ==> hop.username == entry.user.value)
      && (entry.identityFile.Some? && later.identityFile == None ==>
            hop.identityFile == if entry.identityFile.value == [] then None else Some(entry.identityFile.value[0]))
      && (entry.identityAgent.Some? && later.identityAgent == None ==> hop.agent == entry.identityAgent)
      && (entry.forwardAgent.Some? && later.forwardAgent == None ==> hop.agentForward == entry.forwardAgent)
      && (entry.proxyJump.Some? && later.proxyJump == None ==>
            JumpList(before + [entry] + after, name) == entry.proxyJump.value)
  {
    MatchingSplit(before, entry, after, name);
    LastSettingWins(Matching(before, name), entry, Matching(after, name));
  }

  // The chain so far, the next id, and the names seen.
  datatype Resolution = Resolution(chain: seq<Hop>, next: nat, visited: set<string>)

  /** Names that may still come up: those written in the file, and the one asked for. */
  ghost predicate Covers(universe: set<string>, entries: seq<HostEntry>) {
    JumpNames(entries) <= universe
  }

  function Resolve(hostname: string, entries: seq<HostEntry>, next: nat, visited: set<string>, ghost universe: set<string>)
    : (r: Resolution)
    requires hostname in universe && Covers(universe, entries)
    ensures visited <= r.visited
    decreases universe - visited, 1, 0
  {
    if hostname in visited then Resolution([], next, visited)
    else
      JumpsAreWritten(entries, hostname);
      var r := ResolveJumps(JumpList(entries, hostname), entries, next, visited + {hostname}, universe);
      Resolution(r.chain + [HopFor(entries, hostname, r.next)], r.next + 1, r.visited)
  }

  function ResolveJumps(jumps: seq<string>, entries: seq<HostEntry>, next: nat, visited: set<string>, ghost universe: set<string>)
    : (r: Resolution)
    requires Covers(universe, entries) && forall j <- jumps :: j in universe
    ensures visited <= r.visited
    decreases universe - visited, 2, |jumps|
  {
    if jumps == [] then Resolution([], next, visited)
    else if jumps[0] == "none" then ResolveJumps(jumps[1..], entries, next, visited, universe)
    else
      var first := Resolve(jumps[0], entries, next, visited, universe);
      var rest := ResolveJumps(jumps[1..], entries, first.next, first.visited, universe);
      Resolution(first.chain + rest.chain, rest.next, rest.visited)
  }

  /** The chain for one name. */
  function ChainFor(entries: seq<HostEntry>, hostname: string): seq<Hop> {
    Resolve(hostname, entries, 0, {}, JumpNames(entries) + {hostname}).chain
  }

  /** One jump more of a list. */
  lemma JumpStep(jumps: seq<string>, i: nat, entries: seq<HostEntry>, next: nat, visited: set<string>, universe: set<string>)
    requires i < |jumps| && Covers(universe, entries) && forall j <- jumps :: j in universe
    ensures jumps[i] in universe
    ensures
      var rest := jumps[i + 1..];
      ResolveJumps(jumps[i..], entries, next, visited, universe) ==
      if jumps[i] == "none" then ResolveJumps(rest, entries, next, visited, universe)
      else
        var first := Resolve(jumps[i], entries, next, visited, universe);
        var more := ResolveJumps(rest, entries, first.next, first.visited, universe);
        Resolution(first.chain + more.chain, more.next, more.visited)
  {
    assert jumps[i..][1..] == jumps[i + 1..];
  }

  method ResolveHostToChain(
    hostname: string, entries: seq<HostEntry>, firstId: nat, seen: set<string>, ghost universe: set<string>)
    returns (chain: seq<Hop>, next: nat, visited: set<string>)
    requires hostname in universe && Covers(universe, entries)
    ensures Resolution(chain, next, visited) == Resolve(hostname, entries, firstId, seen, universe)
    decreases universe - seen
  {
    chain, next, visited := [], firstId, seen;
    if hostname in visited {
      return;
    }
    visited := visited + {hostname};
    var cfg := MergeEntries(Matching(entries, hostname));
    var jumps := if cfg.proxyJump.Some? then cfg.proxyJump.value else [];
    JumpsAreWritten(entries, hostname);
    ghost var all := ResolveJumps(jumps, entries, next, visited, universe);
    assert jumps[0..] == jumps;
    for i := 0 to |jumps|
      invariant seen + {hostname} <= visited
      invariant var r := ResolveJumps(jumps[i..], entries, next, visited, universe);
                all == Resolution(chain + r.chain, r.next, r.visited)
    {
      var jump := jumps[i];
      JumpStep(jumps, i, entries, next, visited, universe);
      if jump == "none" {
        continue;
      }
      var jumpChain;
      jumpChain, next, visited := ResolveHostToChain(jump, entries, next, visited, universe);
      chain := chain + jumpChain;
    }
    chain := chain + [HopFor(entries, hostname, next)];
    next := next + 1;
  }

  // ---- Paths of jumps

  ghost predicate IsPath(entries: seq<HostEntry>, p: seq<string>) {
    p != [] && forall i :: 0 < i < |p| ==> Jumps(entries, p[i - 1], p[i])
  }

  /** `b` is reached from `a` through jumps, perhaps none. */
  ghost predicate Leads(entries: seq<HostEntry>, a: string, b: string) {
    exists p :: IsPath(entries, p) && p[0] == a && p[|p| - 1] == b
  }

  /** Some host reached from `a` is reached from itself again. */
  ghost predicate CycleFrom(entries: seq<HostEntry>, a: string) {
    exists p :: IsPath(entries, p) && |p| > 1 && p[0] == p[|p| - 1] && Leads(entries, a, p[0])
  }

  lemma LeadsToSelf(entries: seq<HostEntry>, a: string)
    ensures Leads(entries, a, a)
  {
    assert IsPath(entries, [a]);
  }

  lemma PathGrows(entries: seq<HostEntry>, p: seq<string>, c: string)
    requires IsPath(entries, p) && Jumps(entries, p[|p| - 1], c)
    ensures IsPath(entries, p + [c])
  {
    var longer := p + [c];
    forall i | 0 < i < |longer| ensures Jumps(entries, longer[i - 1], longer[i]) {
      if i < |p| {
        assert longer[i] == p[i];
      }
    }
  }

  lemma LeadsOn(entries: seq<HostEntry>, a: string, b: string, c: string)
    requires Leads(entries, a, b) && Jumps(entries, b, c)
    ensures Leads(entries, a, c)
  {
    var p :| IsPath(entries, p) && p[0] == a && p[|p| - 1] == b;
    PathGrows(entries, p, c);
    assert (p + [c])[0] == a && (p + [c])[|p|] == c;
  }

  lemma BackToStart(entries: seq<HostEntry>, start: string, a: string, b: string)
    requires Leads(entries, start, b) && Leads(entries, b, a) && Jumps(entries, a, b)
    ensures CycleFrom(entries, start)
  {
    var p :| IsPath(entries, p) && p[0] == b && p[|p| - 1] == a;
    PathGrows(entries, p, b);
    assert (p + [b])[0] == b == (p + [b])[|p|];
  }

  // ---- What a resolution gives

  function Names(chain: seq<Hop>): (r: seq<string>)
    ensures |r| == |chain| && forall i :: 0 <= i < |r| ==> r[i] == chain[i].name
  {
    if chain == [] then [] else [chain[0].name] + Names(chain[1..])
  }

  ghost predicate NumberedFrom(chain: seq<Hop>, next: nat) {
    forall i :: 0 <= i < |chain| ==> chain[i].id == next + i
  }

  ghost predicate DistinctNames(chain: seq<Hop>) {
    forall i, j :: 0 <= i < j < |chain| ==> chain[i].name != chain[j].name
  }

  /** The chain holds the names newly seen, each once, with consecutive ids. */
  ghost predicate Fresh(r: Resolution, next: nat, visited: set<string>) {
    && r.next == next + |r.chain| && NumberedFrom(r.chain, next)
    && DistinctNames(r.chain)
    && (forall x <- Names(r.chain) :: x in r.visited && x !in visited)
    && (forall x :: x in r.visited && x !in visited ==> x in Names(r.chain))
  }

  lemma {:induction false} ResolveFresh(hostname: string, entries: seq<HostEntry>, next: nat, visited: set<string>, universe: set<string>)
    requires hostname in universe && Covers(universe, entries)
    ensures Fresh(Resolve(hostname, entries, next, visited, universe), next, visited)
    decreases universe - visited, 1, 0
  {
    if hostname !in visited {
      JumpsAreWritten(entries, hostname);
      var jumps := JumpList(entries, hostname);
      ResolveJumpsFresh(jumps, entries, next, visited + {hostname}, universe);
      var r := ResolveJumps(jumps, entries, next, visited + {hostname}, universe);
      FreshThenSelf(r, next, visited, HopFor(entries, hostname, r.next));
    }
  }

  lemma {:induction false} ResolveJumpsFresh(jumps: seq<string>, entries: seq<HostEntry>, next: nat, visited: set<string>, universe: set<string>)
    requires Covers(universe, entries) && forall j <- jumps :: j in universe
    ensures Fresh(ResolveJumps(jumps, entries, next, visited, universe), next, visited)
    decreases universe - visited, 2, |jumps|
  {
    if jumps != [] {
      if jumps[0] == "none" {
        ResolveJumpsFresh(jumps[1..], entries, next, visited, universe);
      } else {
        var first := Resolve(jumps[0], entries, next, visited, universe);
        ResolveFresh(jumps[0], entries, next, visited, universe);
        ResolveJumpsFresh(jumps[1..], entries, first.next, first.visited, universe);
        FreshConcat(first, ResolveJumps(jumps[1..], entries, first.next, first.visited, universe), next, visited);
      }
    }
  }

  lemma NamesConcat(a: seq<Hop>, b: seq<Hop>)
    ensures Names(a + b) == Names(a) + Names(b)
  {
  }

  lemma DistinctConcat(a: seq<Hop>, b: seq<Hop>)
    requires DistinctNames(a) && DistinctNames(b) && forall x <- Names(a) :: x !in Names(b)
    ensures DistinctNames(a + b)
  {
    var whole := a + b;
    forall i, j | 0 <= i < j < |whole| ensures whole[i].name != whole[j].name {
      if i < |a| <= j {
        assert Names(a)[i] in Names(a) && Names(b)[j - |a|] in Names(b);
      }
    }
  }

  lemma FreshConcat(a: Resolution, b: Resolution, next: nat, visited: set<string>)
    requires Fresh(a, next, visited) && Fresh(b, a.next, a.visited) && visited <= a.visited <= b.visited
    ensures Fresh(Resolution(a.chain + b.chain, b.next, b.visited), next, visited)
  {
    NamesConcat(a.chain, b.chain);
    DistinctConcat(a.chain, b.chain);
  }

  lemma FreshThenSelf(r: Resolution, next: nat, visited: set<string>, hop: Hop)
    requires hop.name !in visited && hop.id == r.next && visited + {hop.name} <= r.visited
    requires Fresh(r, next, visited + {hop.name})
    ensures Fresh(Resolution(r.chain + [hop], r.next + 1, r.visited), next, visited)
  {
    assert Names([hop]) == [hop.name];
    NamesConcat(r.chain, [hop]);
    DistinctConcat(r.chain, [hop]);
  }

  // ---- Only what is reached, and all of it

  lemma {:induction false} ResolveReached(
    start: string, hostname: string, entries: seq<HostEntry>, next: nat, visited: set<string>, universe: set<string>)
    requires hostname in universe && Covers(universe, entries) && Leads(entries, start, hostname)
    ensures forall hop <- Resolve(hostname, entries, next, visited, universe).chain :: Leads(entries, start, hop.name)
    decreases universe - visited, 1, 0
  {
    if hostname !in visited {
      JumpsAreWritten(entries, hostname);
      forall j | j in JumpList(entries, hostname) && j != "none" ensures Leads(entries, start, j) {
        LeadsOn(entries, start, hostname, j);
      }
      ResolveJumpsReached(start, JumpList(entries, hostname), entries, next, visited + {hostname}, universe);
    }
  }

  lemma {:induction false} ResolveJumpsReached(
    start: string, jumps: seq<string>, entries: seq<HostEntry>, next: nat, visited: set<string>, universe: set<string>)
    requires Covers(universe, entries) && (forall j <- jumps :: j in universe)
    requires forall j <- jumps :: j != "none" ==> Leads(entries, start, j)
    ensures forall hop <- ResolveJumps(jumps, entries, next, visited, universe).chain :: Leads(entries, start, hop.name)
    decreases universe - visited, 2, |jumps|
  {
    if jumps != [] {
      if jumps[0] == "none" {
        ResolveJumpsReached(start, jumps[1..], entries, next, visited, universe);
      } else {
        var first := Resolve(jumps[0], entries, next, visited, universe);
        ResolveReached(start, jumps[0], entries, next, visited, universe);
        ResolveJumpsReached(start, jumps[1..], entries, first.next, first.visited, universe);
      }
    }
  }

  /** What a newly seen name jumps through has been seen too. */
  ghost predicate Closed(entries: seq<HostEntry>, before: set<string>, after: set<string>) {
    forall x, j :: x in after && x !in before && Jumps(entries, x, j) ==> j in after
  }

  lemma {:induction false} ResolveClosed(hostname: string, entries: seq<HostEntry>, next: nat, visited: set<string>, universe: set<string>)
    requires hostname in universe && Covers(universe, entries)
    ensures
      var r := Resolve(hostname, entries, next, visited, universe);
      hostname in r.visited && Closed(entries, visited, r.visited)
    decreases universe - visited, 1, 0
  {
    if hostname !in visited {
      JumpsAreWritten(entries, hostname);
      ResolveJumpsClosed(JumpList(entries, hostname), entries, next, visited + {hostname}, universe);
    }
  }

  lemma {:induction false} ResolveJumpsClosed(
    jumps: seq<string>, entries: seq<HostEntry>, next: nat, visited: set<string>, universe: set<string>)
    requires Covers(universe, entries) && forall j <- jumps :: j in universe
    ensures
      var r := ResolveJumps(jumps, entries, next, visited, universe);
      (forall j <- jumps :: j != "none" ==> j in r.visited) && Closed(entries, visited, r.visited)
    decreases universe - visited, 2, |jumps|
  {
    if jumps != [] {
      if jumps[0] == "none" {
        ResolveJumpsClosed(jumps[1..], entries, next, visited, universe);
      } else {
        var first := Resolve(jumps[0], entries, next, visited, universe);
        ResolveClosed(jumps[0], entries, next, visited, universe);
        ResolveJumpsClosed(jumps[1..], entries, first.next, first.visited, universe);
      }
    }
  }

  lemma {:induction false} PathStaysInside(entries: seq<HostEntry>, p: seq<string>, seen: set<string>)
    requires IsPath(entries, p) && p[0] in seen && Closed(entries, {}, seen)
    ensures p[|p| - 1] in seen
  {
    if |p| > 1 {
      assert Jumps(entries, p[0], p[1]);
      assert forall i :: 0 < i < |p| - 1 ==> p[1..][i] == p[i + 1] && p[1..][i - 1] == p[i];
      PathStaysInside(entries, p[1..], seen);
    }
  }

  /**
   The chain for a host: the host comes last; ids count up from zero; no name comes twice; and the names are
   exactly the host and whatever is reached from it through jumps other than "none".
   */
  lemma ChainIsReachable(entries: seq<HostEntry>, hostname: string)
    ensures
      var chain := ChainFor(entries, hostname);
      && chain != [] && chain[|chain| - 1].name == hostname
      && (forall i :: 0 <= i < |chain| ==> chain[i] == HopFor(entries, chain[i].name, i))
      && (forall i, j :: 0 <= i < j < |chain| ==> chain[i].name != chain[j].name)
      && (forall x :: x in Names(chain) <==> Leads(entries, hostname, x))
  {
    var universe := JumpNames(entries) + {hostname};
    ResolveFresh(hostname, entries, 0, {}, universe);
    ResolveHops(hostname, entries, 0, {}, universe);
    forall x ensures x in Names(ChainFor(entries, hostname)) <==> Leads(entries, hostname, x) {
      ReachedIff(entries, hostname, x);
    }
  }

  lemma ReachedIff(entries: seq<HostEntry>, hostname: string, x: string)
    ensures x in Names(ChainFor(entries, hostname)) <==> Leads(entries, hostname, x)
  {
    var universe := JumpNames(entries) + {hostname};
    var r := Resolve(hostname, entries, 0, {}, universe);
    ResolveFresh(hostname, entries, 0, {}, universe);
    LeadsToSelf(entries, hostname);
    ResolveReached(hostname, hostname, entries, 0, {}, universe);
    ResolveClosed(hostname, entries, 0, {}, universe);
    if x in Names(r.chain) {
      var i :| 0 <= i < |r.chain| && Names(r.chain)[i] == x;
      assert r.chain[i] in r.chain;
    }
    if Leads(entries, hostname, x) {
      var p :| IsPath(entries, p) && p[0] == hostname && p[|p| - 1] == x;
      PathStaysInside(entries, p, r.visited);
    }
  }

  /** Every hop carries the settings of its own name. */
  lemma {:induction false} ResolveHops(hostname: string, entries: seq<HostEntry>, next: nat, visited: set<string>, universe: set<string>)
    requires hostname in universe && Covers(universe, entries)
    ensures forall hop <- Resolve(hostname, entries, next, visited, universe).chain :: hop == HopFor(entries, hop.name, hop.id)
    decreases universe - visited, 1, 0
  {
    if hostname !in visited {
      JumpsAreWritten(entries, hostname);
      ResolveJumpsHops(JumpList(entries, hostname), entries, next, visited + {hostname}, universe);
    }
  }

  lemma {:induction false} ResolveJumpsHops(
    jumps: seq<string>, entries: seq<HostEntry>, next: nat, visited: set<string>, universe: set<string>)
    requires Covers(universe, entries) && forall j <- jumps :: j in universe
    ensures forall hop <- ResolveJumps(jumps, entries, next, visited, universe).chain :: hop == HopFor(entries, hop.name, hop.id)
    decreases universe - visited, 2, |jumps|
  {
    if jumps != [] {
      if jumps[0] == "none" {
        ResolveJumpsHops(jumps[1..], entries, next, visited, universe);
      } else {
        var first := Resolve(jumps[0], entries, next, visited, universe);
        ResolveHops(jumps[0], entries, next, visited, universe);
        ResolveJumpsHops(jumps[1..], entries, first.next, first.visited, universe);
      }
    }
  }

  // ---- Jumps before the hosts behind them

  /** The name is that of one of the first `k` hosts of the chain. */
  ghost predicate Before(chain: seq<Hop>, k: nat, name: string) {
    exists i: nat :: i < k && i < |chain| && chain[i].name == name
  }

  /** Whatever a host jumps through is done already or comes earlier in the chain. */
  ghost predicate Ordered(entries: seq<HostEntry>, chain: seq<Hop>, done: set<string>) {
    forall k: nat, j :: k < |chain| && Jumps(entries, chain[k].name, j) ==> j in done || Before(chain, k, j)
  }

  lemma NamedBefore(chain: seq<Hop>, name: string)
    requires name in Names(chain)
    ensures Before(chain, |chain|, name)
  {
    var i :| 0 <= i < |chain| && Names(chain)[i] == name;
    assert chain[i].name == name;
  }

  lemma BeforeInConcat(a: seq<Hop>, b: seq<Hop>, k: nat, name: string)
    ensures Before(a, k, name) ==> Before(a + b, k, name)
    ensures Before(b, k, name) ==> Before(a + b, |a| + k, name)
  {
    if Before(a, k, name) {
      var i: nat :| i < k && i < |a| && a[i].name == name;
      assert (a + b)[i].name == name;
    }
    if Before(b, k, name) {
      var i: nat :| i < k && i < |b| && b[i].name == name;
      assert (a + b)[|a| + i].name == name;
    }
  }

  lemma OrderedConcat(entries: seq<HostEntry>, a: seq<Hop>, b: seq<Hop>, done: set<string>, later: set<string>)
    requires Ordered(entries, a, done) && Ordered(entries, b, later)
    requires forall x <- later :: x in done || x in Names(a)
    ensures Ordered(entries, a + b, done)
  {
    var whole := a + b;
    forall k: nat, j | k < |whole| && Jumps(entries, whole[k].name, j) ensures j in done || Before(whole, k, j) {
      if k < |a| {
        assert Jumps(entries, a[k].name, j);
        BeforeInConcat(a, b, k, j);
      } else {
        assert Jumps(entries, b[k - |a|].name, j);
        BeforeInConcat(a, b, k - |a|, j);
        if j in Names(a) {
          NamedBefore(a, j);
          BeforeInConcat(a, b, |a|, j);
        }
      }
    }
  }

  /** The hosts being resolved around this one: each leads here, and is reached from the start. */
  ghost predicate Around(entries: seq<HostEntry>, start: string, open: set<string>, hostname: string) {
    Leads(entries, start, hostname) && forall s <- open :: Leads(entries, start, s) && Leads(entries, s, hostname)
  }

  lemma {:induction false} ResolveOrdered(
    start: string, open: set<string>,
    hostname: string, entries: seq<HostEntry>, next: nat, visited: set<string>, universe: set<string>)
    requires hostname in universe && Covers(universe, entries)
    requires open <= visited && Around(entries, start, open, hostname) && !CycleFrom(entries, start)
    ensures Ordered(entries, Resolve(hostname, entries, next, visited, universe).chain, visited - open)
    decreases universe - visited, 1, 0
  {
    if hostname !in visited {
      JumpsAreWritten(entries, hostname);
      var jumps := JumpList(entries, hostname);
      var inside := open + {hostname};
      LeadsToSelf(entries, hostname);
      forall j | j in jumps && j != "none" ensures Around(entries, start, inside, j) {
        StepInside(entries, start, open, hostname, j);
      }
      var r := ResolveJumps(jumps, entries, next, visited + {hostname}, universe);
      ResolveJumpsOrdered(start, inside, jumps, entries, next, visited + {hostname}, universe);
      assert visited + {hostname} - inside == visited - open;
      ResolveJumpsFresh(jumps, entries, next, visited + {hostname}, universe);
      ResolveJumpsClosed(jumps, entries, next, visited + {hostname}, universe);
      forall j | Jumps(entries, hostname, j) ensures j in visited - open || j in Names(r.chain) {
        if j in inside {
          BackToStart(entries, start, hostname, j);
        }
      }
      SelfIsLast(entries, r.chain, HopFor(entries, hostname, r.next), visited - open);
    }
  }

  lemma StepInside(entries: seq<HostEntry>, start: string, open: set<string>, hostname: string, j: string)
    requires Around(entries, start, open, hostname) && Jumps(entries, hostname, j)
    ensures Around(entries, start, open + {hostname}, j)
  {
    LeadsOn(entries, start, hostname, j);
    LeadsToSelf(entries, hostname);
    forall s | s in open + {hostname} ensures Leads(entries, start, s) && Leads(entries, s, j) {
      LeadsOn(entries, s, hostname, j);
    }
  }

  lemma SelfIsLast(entries: seq<HostEntry>, chain: seq<Hop>, self: Hop, done: set<string>)
    requires Ordered(entries, chain, done)
    requires forall j :: Jumps(entries, self.name, j) ==> j in done || j in Names(chain)
    ensures Ordered(entries, chain + [self], done)
  {
    var whole := chain + [self];
    forall k: nat, j | k < |whole| && Jumps(entries, whole[k].name, j) ensures j in done || Before(whole, k, j) {
      BeforeInConcat(chain, [self], k, j);
      if k < |chain| {
        assert Jumps(entries, chain[k].name, j);
      } else if j in Names(chain) {
        NamedBefore(chain, j);
      }
    }
  }

  lemma {:induction false} ResolveJumpsOrdered(
    start: string, open: set<string>,
    jumps: seq<string>, entries: seq<HostEntry>, next: nat, visited: set<string>, universe: set<string>)
    requires Covers(universe, entries) && (forall j <- jumps :: j in universe)
    requires open <= visited && !CycleFrom(entries, start)
    requires forall j <- jumps :: j != "none" ==> Around(entries, start, open, j)
    ensures Ordered(entries, ResolveJumps(jumps, entries, next, visited, universe).chain, visited - open)
    decreases universe - visited, 2, |jumps|
  {
    if jumps != [] {
      if jumps[0] == "none" {
        ResolveJumpsOrdered(start, open, jumps[1..], entries, next, visited, universe);
      } else {
        var first := Resolve(jumps[0], entries, next, visited, universe);
        ResolveOrdered(start, open, jumps[0], entries, next, visited, universe);
        ResolveFresh(jumps[0], entries, next, visited, universe);
        ResolveJumpsOrdered(start, open, jumps[1..], entries, first.next, first.visited, universe);
        OrderedConcat(
          entries, first.chain, ResolveJumps(jumps[1..], entries, first.next, first.visited, universe).chain,
          visited - open, first.visited - open);
      }
    }
  }

  /** Along a path through an ordered chain the places in the chain go down. */
  lemma {:induction false} PlacesGoDown(entries: seq<HostEntry>, chain: seq<Hop>, p: seq<string>, at: nat)
    requires Ordered(entries, chain, {}) && IsPath(entries, p) && at < |chain| && p[0] == chain[at].name
    ensures |p| > 1 ==> Before(chain, at, p[|p| - 1])
  {
    if |p| > 1 {
      assert Jumps(entries, p[0], p[1]);
      assert Jumps(entries, chain[at].name, p[1]);
      assert Before(chain, at, p[1]);
      var i: nat :| i < at && i < |chain| && chain[i].name == p[1];
      assert forall m :: 0 < m < |p| - 1 ==> p[1..][m] == p[m + 1] && p[1..][m - 1] == p[m];
      PlacesGoDown(entries, chain, p[1..], i);
    }
  }

  /** Every host comes after all the jumps it names, exactly when no cycle of jumps is reached. */
  lemma JumpsComeFirstIff(entries: seq<HostEntry>, hostname: string)
    ensures Ordered(entries, ChainFor(entries, hostname), {}) <==> !CycleFrom(entries, hostname)
  {
    var chain := ChainFor(entries, hostname);
    LeadsToSelf(entries, hostname);
    if !CycleFrom(entries, hostname) {
      var none: set<string> := {};
      ResolveOrdered(hostname, none, hostname, entries, 0, none, JumpNames(entries) + {hostname});
      assert none - none == none;
    }
    if Ordered(entries, chain, {}) && CycleFrom(entries, hostname) {
      ChainIsReachable(entries, hostname);
      var p :| IsPath(entries, p) && |p| > 1 && p[0] == p[|p| - 1] && Leads(entries, hostname, p[0]);
      assert p[0] in Names(chain);
      NamedBefore(chain, p[0]);
      var at: nat :| at < |chain| && chain[at].name == p[0];
      PlacesGoDown(entries, chain, p, at);
    }
  }
}
