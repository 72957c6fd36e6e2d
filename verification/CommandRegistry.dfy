/**
 The command registry (src/command-registry.ts): its operations on the stored
 file, and the lock directory that makes them one after the other when several
 processes work at once.
 */
module RegistryOperations {
  import opened Base

  datatype Key = Key(project: Name, name: Name)
  datatype Mode = Exec | Schedule | Background
  datatype Execution = Execution(mode: Mode, intent: Option<string>, cost: string)
  datatype Command = Command(
    command: string, description: Option<string>, cwd: Option<string>, execution: Execution,
    createdAt: Time, updatedAt: Time)

  type Commands = map<Key, Command>

  /** An entry as it is parsed or merged, before it is normalised; a blank text counts as missing. */
  datatype Raw = Raw(
    command: Option<string>, description: Option<string>, cwd: Option<string>,
    mode: Option<string>, intent: Option<string>, cost: Option<string>, createdAt: Time, updatedAt: Time)

  // A field of an update: not mentioned, or given a value; a blank text counts as none.
  datatype Field = Absent | Given(value: Option<string>)

  datatype ExecutionInput = ExecutionInput(mode: Field, intent: Field, cost: Field)
  datatype Input = Input(command: Field, description: Field, cwd: Field, execution: ExecutionInput)

  datatype Operation =
    | Register(key: Key, input: Input)
    | Update(key: Key, updates: Input)
    | Delete(key: Key)

  // ---- Normal entries

  function ModeName(mode: Mode): string {
    match mode
    case Exec => "exec"
    case Schedule => "schedule"
    case Background => "background"
  }

  function NormalMode(value: Option<string>): Mode {
    if value == Some("exec") then Exec else if value == Some("schedule") then Schedule else Background
  }

  function DefaultCost(mode: Mode): string {
    if mode == Exec then "medium" else "large"
  }

  predicate IsWordChar(c: char) {
    'a' <= c <= 'z' || 'A' <= c <= 'Z' || '0' <= c <= '9' || c == '_'
  }

  /** Position `i` of the text is between a word and what is not one. */
  predicate IsBoundary(text: string, i: nat)
    requires i <= |text|
  {
    (i > 0 && IsWordChar(text[i - 1])) != (i < |text| && IsWordChar(text[i]))
  }

  predicate WordAt(text: string, word: string, i: nat)
    requires i + |word| <= |text|
  {
    text[i..i + |word|] == word && IsBoundary(text, i) && IsBoundary(text, i + |word|)
  }

  predicate HasWordFrom(text: string, word: string, i: nat)
    decreases |text| - i
  {
    i + |word| <= |text| && (WordAt(text, word, i) || HasWordFrom(text, word, i + 1))
  }

  /** The search of a text for one of several words, as whole words. */
  predicate HasAny(text: string, words: seq<string>) {
    words != [] && (HasWordFrom(text, words[0], 0) || HasAny(text, words[1..]))
  }

  lemma {:induction false} HasWordIff(text: string, word: string, i: nat)
    ensures HasWordFrom(text, word, i) <==> exists k: nat :: i <= k <= |text| - |word| && WordAt(text, word, k)
    decreases |text| - i
  {
    if i + |word| <= |text| {
      HasWordIff(text, word, i + 1);
    }
  }

  /** Some word of the list stands somewhere in the text, between what are not words. */
  lemma {:induction false} HasAnyIff(text: string, words: seq<string>)
    ensures HasAny(text, words) <==>
            exists j: nat, k: nat :: j < |words| && k <= |text| - |words[j]| && WordAt(text, words[j], k)
  {
    if words != [] {
      var rest := words[1..];
      HasWordIff(text, words[0], 0);
      HasAnyIff(text, rest);
      if j: nat, k: nat :| j < |words| && k <= |text| - |words[j]| && WordAt(text, words[j], k) {
        assert j > 0 ==> rest[j - 1] == words[j];
      }
      if j: nat, k: nat :| j < |rest| && k <= |text| - |rest[j]| && WordAt(text, rest[j], k) {
        assert rest[j] == words[j + 1];
      }
    }
  }

  /** By character code: a digit, an upper-case letter, the underscore, a lower-case letter. */
  predicate PartOfWord(c: char) {
    var code := c as int;
    48 <= code <= 57 || 65 <= code <= 90 || code == 95 || 97 <= code <= 122
  }

  lemma WordCharIff(c: char)
    ensures IsWordChar(c) <==> PartOfWord(c)
  {
  }

  /** A word stands where neither neighbour is a letter, a digit or an underscore, so that it is not part of another. */
  lemma StandsAloneIff(before: string, word: string, after: string)
    requires word != "" && PartOfWord(word[0]) && PartOfWord(word[|word| - 1])
    ensures
      var text := before + word + after;
      WordAt(text, word, |before|) <==>
      && (before == "" || !PartOfWord(before[|before| - 1]))
      && (after == "" || !PartOfWord(after[0]))
  {
    var text := before + word + after;
    WordCharIff(word[0]);
    WordCharIff(word[|word| - 1]);
    assert text[|before|..|before| + |word|] == word;
    assert text[|before|] == word[0] && text[|before| + |word| - 1] == word[|word| - 1];
    if before != "" {
      WordCharIff(before[|before| - 1]);
      assert text[|before| - 1] == before[|before| - 1];
    }
    if after != "" {
      WordCharIff(after[0]);
      assert text[|before| + |word|] == after[0];
    }
  }

  const TEST_WORDS: seq<string> := ["test", "pytest", "go test", "cargo test"]
  const BUILD_WORDS: seq<string> := ["build", "make", "cargo build"]
  const INSTALL_WORDS: seq<string> := ["install", "apt", "pip", "npm install", "pnpm install", "yarn install"]

  function InferIntent(mode: Mode, command: string): Option<string> {
    if mode == Background then Some("server")
    else if HasAny(command, TEST_WORDS) then Some("test")
    else if HasAny(command, BUILD_WORDS) then Some("build")
    else if HasAny(command, INSTALL_WORDS) then Some("install")
    else None
  }

  /** The normal form of an entry; none without a command. */
  function NormalizeEntry(raw: Raw): Option<Command> {
    match raw.command
    case None => None
    case Some(command) =>
      var mode := NormalMode(raw.mode);
      var intent := if raw.intent.Some? then raw.intent else InferIntent(mode, command);
      var cost := if raw.cost.Some? then raw.cost.value else DefaultCost(mode);
      Some(Command(
        command, raw.description, raw.cwd, Execution(mode, intent, cost), raw.createdAt, raw.updatedAt))
  }

  /** An entry as the file holds it. */
  function AsRaw(c: Command): Raw {
    Raw(
      Some(c.command), c.description, c.cwd,
      Some(ModeName(c.execution.mode)), c.execution.intent, Some(c.execution.cost), c.createdAt, c.updatedAt)
  }

  /** Normal entries are those that reading leaves as they are. */
  predicate IsNormal(c: Command) {
    c.execution.intent == None ==> InferIntent(c.execution.mode, c.command) == None
  }

  ghost predicate AllNormal(commands: Commands) {
    forall key <- commands :: IsNormal(commands[key])
  }

  /** What is normalised is normal, and reading an entry back changes it exactly if it was not. */
  lemma ReadBackIff(raw: Raw, c: Command)
    ensures NormalizeEntry(raw).Some? ==> IsNormal(NormalizeEntry(raw).value)
    ensures NormalizeEntry(AsRaw(c)) == Some(c) <==> IsNormal(c)
  {
  }

  // ---- Operations

  function Overlaid(field: Field, existing: Option<string>): Option<string> {
    if field.Given? then field.value else existing
  }

  function Merged(input: Input, existing: Option<Command>, now: Time): Raw {
    var base := if existing.Some? then AsRaw(existing.value) else Raw(None, None, None, None, None, None, now, now);
    Raw(
      Overlaid(input.command, base.command), Overlaid(input.description, base.description), Overlaid(input.cwd, base.cwd),
      Overlaid(input.execution.mode, base.mode), Overlaid(input.execution.intent, base.intent),
      Overlaid(input.execution.cost, base.cost), base.createdAt, now)
  }

  /** The entry after an update; none when it would have no command. */
  function Merge(input: Input, existing: Option<Command>, now: Time): Option<Command> {
    NormalizeEntry(Merged(input, existing, now))
  }

  function Lookup(commands: Commands, key: Key): Option<Command> {
    if key in commands then Some(commands[key]) else None
  }

  /** What the operation writes; none when it writes nothing. */
  function Written(op: Operation, latest: Commands, now: Time): Option<Commands> {
    match op
    case Register(key, input) =>
      (match Merge(input, Lookup(latest, key), now)
       case None => None
       case Some(saved) => Some(latest[key := saved]))
    case Update(key, updates) =>
      if key !in latest then None
      else
        (match Merge(updates, Some(latest[key]), now)
         case None => None
         case Some(updated) => Some(latest[key := updated]))
    case Delete(key) =>
      if key in latest then Some(latest - {key}) else None
  }

  /** The file after the operation. */
  function Applied(op: Operation, latest: Commands, now: Time): Commands {
    match Written(op, latest, now)
    case None => latest
    case Some(commands) => commands
  }

  datatype Commit = Commit(op: Operation, at: Time)

  /** The operations one after the other. */
  function Serial(file: Commands, commits: seq<Commit>): Commands {
    if commits == [] then file
    else
      var last := commits[|commits| - 1];
      Applied(last.op, Serial(file, commits[..|commits| - 1]), last.at)
  }

  lemma SerialGrows(file: Commands, commits: seq<Commit>, commit: Commit)
    ensures Serial(file, commits + [commit]) == Applied(commit.op, Serial(file, commits), commit.at)
  {
    assert (commits + [commit])[..|commits|] == commits;
  }

  /** An operation touches its own entry and no other. */
  lemma OthersStay(op: Operation, latest: Commands, now: Time, other: Key)
    requires other != op.key
    ensures Lookup(Applied(op, latest, now), other) == Lookup(latest, other)
  {
  }

  /** An entry that is overwritten keeps its creation time. */
  lemma CreationStays(op: Operation, latest: Commands, now: Time)
    requires op.key in latest && !op.Delete?
    ensures op.key in Applied(op, latest, now)
    ensures Applied(op, latest, now)[op.key].createdAt == latest[op.key].createdAt
  {
  }

  /** Whatever is written is normal, so the next process reads it back as it was meant. */
  lemma NormalStays(op: Operation, latest: Commands, now: Time)
    requires AllNormal(latest)
    ensures AllNormal(Applied(op, latest, now))
  {
  }

  /**
   An intent and a cost once stored outlive a change of command or mode, although both were inferred from these:
   they change only if the update mentions them.
   */
  lemma InferredStays(op: Operation, latest: Commands, now: Time)
    requires op.key in latest && !op.Delete?
    requires (if op.Register? then op.input else op.updates).execution.intent.Absent?
    requires (if op.Register? then op.input else op.updates).execution.cost.Absent?
    ensures
      var before, after := latest[op.key].execution, Applied(op, latest, now)[op.key].execution;
      after.cost == before.cost && (before.intent.Some? ==> after.intent == before.intent)
  {
  }

  /** What an update makes of a text: its own value if it mentions one, or what was there. */
  predicate Takes(field: Field, before: Option<string>, after: Option<string>) {
    match field
    case Absent => after == before
    case Given(value) => after == value
  }

  /** The mode an update leaves: a known name chooses its mode, any other text or none the background. */
  predicate TakesMode(field: Field, before: Option<Command>, after: Mode) {
    match field
    case Absent => after == if before.Some? then before.value.execution.mode else Background
    case Given(value) =>
      && (after == Exec <==> value == Some("exec"))
      && (after == Schedule <==> value == Some("schedule"))
  }

  /** A missing intent is inferred: servers run in the background, and the others go by the words of their command. */
  predicate IsInferred(intent: Option<string>, mode: Mode, command: string) {
    var test := HasAny(command, ["test", "pytest", "go test", "cargo test"]);
    var build := HasAny(command, ["build", "make", "cargo build"]);
    var install := HasAny(command, ["install", "apt", "pip", "npm install", "pnpm install", "yarn install"]);
    && (intent == Some("server") <==> mode == Background)
    && (intent == Some("test") <==> mode != Background && test)
    && (intent == Some("build") <==> mode != Background && !test && build)
    && (intent == Some("install") <==> mode != Background && !test && !build && install)
    && (intent == None <==> mode != Background && !test && !build && !install)
  }

  /** The entry after an update, field by field. */
  ghost predicate IsUpdated(input: Input, before: Option<Command>, after: Command, now: Time) {
    var e := after.execution;
    && Takes(input.command, if before.Some? then Some(before.value.command) else None, Some(after.command))
    && Takes(input.description, if before.Some? then before.value.description else None, after.description)
    && Takes(input.cwd, if before.Some? then before.value.cwd else None, after.cwd)
    && TakesMode(input.execution.mode, before, e.mode)
    && (var intent := input.execution.intent;
        if intent.Given? && intent.value.Some? then e.intent == intent.value
        else if intent.Absent? && before.Some? && before.value.execution.intent.Some?
             then e.intent == before.value.execution.intent
        else IsInferred(e.intent, e.mode, after.command))
    && (var cost := input.execution.cost;
        if cost.Given? && cost.value.Some? then e.cost == cost.value.value
        else if cost.Absent? && before.Some? then e.cost == before.value.execution.cost
        else e.cost == if e.mode == Exec then "medium" else "large")
    && after.createdAt == (if before.Some? then before.value.createdAt else now) && after.updatedAt == now
  }

  lemma InferTells(mode: Mode, command: string)
    ensures IsInferred(InferIntent(mode, command), mode, command)
  {
  }

  lemma MergeTells(input: Input, before: Option<Command>, now: Time)
    ensures Merge(input, before, now).Some? <==> if input.command.Given? then input.command.value.Some? else before.Some?
    ensures Merge(input, before, now).Some? ==> IsUpdated(input, before, Merge(input, before, now).value, now)
  {
    var raw := Merged(input, before, now);
    if raw.command.Some? {
      InferTells(NormalMode(raw.mode), raw.command.value);
    }
  }

  /**
   What an operation writes: registering makes the entry whatever it was, unless it would have no command; updating
   does so only to an entry that is there; deleting takes away one that is there. Otherwise nothing is written.
   */
  lemma WrittenTells(op: Operation, latest: Commands, now: Time)
    ensures
      var before, after := Lookup(latest, op.key), Lookup(Applied(op, latest, now), op.key);
      match op
      case Register(_, input) =>
        && (Written(op, latest, now).Some? <==> if input.command.Given? then input.command.value.Some? else before.Some?)
        && (Written(op, latest, now).Some? ==> after.Some? && IsUpdated(input, before, after.value, now))
      case Update(_, updates) =>
        && (Written(op, latest, now).Some? <==> before.Some? && !(updates.command == Given(None)))
        && (Written(op, latest, now).Some? ==> after.Some? && IsUpdated(updates, before, after.value, now))
      case Delete(_) => (Written(op, latest, now).Some? <==> before.Some?) && after == None
    ensures Written(op, latest, now) == None ==> Applied(op, latest, now) == latest
  {
    match op
    case Register(key, input) => MergeTells(input, Lookup(latest, key), now);
    case Update(key, updates) => MergeTells(updates, Lookup(latest, key), now);
    case Delete(_) =>
  }

  /** The in-memory copy and the three operations as they run inside the lock. */
  class CommandRegistryStore {
    var file: Commands
    var commands: Commands

    constructor (file: Commands)
      ensures this.file == file && commands == file
    {
      this.file := file;
      commands := file;
    }

    method ReplaceCommands(latest: Commands)
      modifies `commands
      ensures commands == latest
    {
      commands := map[];
      var todo := latest.Keys;
      while todo != {}
        invariant todo <= latest.Keys && commands.Keys == latest.Keys - todo
        invariant forall k <- commands :: commands[k] == latest[k]
        decreases |todo|
      {
        var k :| k in todo;
        todo := todo - {k};
        commands := commands[k := latest[k]];
      }
    }

    method RegisterCommand(key: Key, input: Input, now: Time) returns (saved: Option<Command>)
      modifies this
      ensures file == Applied(Register(key, input), old(file), now)
      ensures saved.Some? ==> commands == file && Lookup(file, key) == saved
      ensures saved == None <==> Written(Register(key, input), old(file), now) == None
      ensures saved == None ==> commands == old(commands)
    {
      var latest := file;
      saved := Merge(input, Lookup(latest, key), now);
      if saved == None {
        return;
      }
      latest := latest[key := saved.value];
      file := latest;
      ReplaceCommands(latest);
    }

    method UpdateCommand(key: Key, updates: Input, now: Time) returns (updated: Option<Command>)
      modifies this
      ensures file == Applied(Update(key, updates), old(file), now)
      ensures updated.Some? ==> commands == file && Lookup(file, key) == updated
      ensures updated == None <==> Written(Update(key, updates), old(file), now) == None
      ensures updated == None ==> commands == old(commands)
    {
      var latest := file;
      if key !in latest {
        return None;
      }
      updated := Merge(updates, Some(latest[key]), now);
      if updated == None {
        return;
      }
      latest := latest[key := updated.value];
      file := latest;
      ReplaceCommands(latest);
    }

    method DeleteCommand(key: Key, now: Time) returns (deleted: bool)
      modifies this
      ensures file == Applied(Delete(key), old(file), now) && commands == file
      ensures deleted <==> key in old(file)
      ensures key !in file
    {
      var latest := file;
      deleted := key in latest;
      latest := latest - {key};
      if deleted {
        file := latest;
      }
      ReplaceCommands(latest);
    }
  }
}

module RegistryLocks {
  import opened Base
  import opened RegistryOperations

  const COMMAND_REGISTRY_LOCK_TIMEOUT_MS: Time := 5000
  const COMMAND_REGISTRY_STALE_LOCK_MS: Time := 30000

  type ProcessId = Name
  type OwnerToken = Name

  /** Where a process is in a locked operation; each step between two of these is one file-system call. */
  datatype Local =
    | Idle
    | Trying(op: Operation, token: OwnerToken, deadline: Time)
    | Blocked(op: Operation, token: OwnerToken, deadline: Time)
    | Breaking(op: Operation, token: OwnerToken, deadline: Time)
    | Created(op: Operation, token: OwnerToken)
    | Locked(op: Operation, token: OwnerToken)
    | HasRead(op: Operation, token: OwnerToken, copy: Commands)
    | Done(token: OwnerToken)
    | Releasing
    | RemovedOwner

  datatype LockDir = LockDir(owner: Option<OwnerToken>, mtimeMs: Time)

  /** The lock directory, the file, the processes, the clock; then history: who took the lock and when, and the commits. */
  datatype System = System(
    lock: Option<LockDir>, file: Commands, locals: map<ProcessId, Local>, now: Time,
    holder: Option<ProcessId>, since: Time, commits: seq<Commit>)

  datatype Action =
    | Call(op: Operation, token: OwnerToken)
    | MakeDir
    | WriteOwner
    | OwnerFails
    | TestStale
    | BreakLock
    | GiveUp
    | Retry
    | ReadFile
    | CommitWrite
    | WriteFails
    | CheckOwner
    | RemoveOwner
    | RemoveDir
    | Tick(until: Time)

  function At(s: System, p: ProcessId): Local {
    if p in s.locals then s.locals[p] else Idle
  }

  function Moved(s: System, p: ProcessId, local: Local): System {
    s.(locals := s.locals[p := local])
  }

  /** Inside from the moment the lock directory is made until it is gone. */
  predicate Inside(local: Local) {
    local.Created? || local.Locked? || local.HasRead? || local.Done? || local.Releasing? || local.RemovedOwner?
  }

  predicate Enabled(s: System, p: ProcessId, action: Action) {
    var local := At(s, p);
    match action
    case Call(_, _) => local.Idle?
    case MakeDir => local.Trying?
    case WriteOwner => local.Created?
    case OwnerFails => local.Created?
    case TestStale => local.Blocked?
    case BreakLock => local.Breaking?
    case GiveUp => local.Blocked? && s.now >= local.deadline
    case Retry => local.Blocked?
    case ReadFile => local.Locked?
    case CommitWrite => local.HasRead?
    case WriteFails => local.HasRead?
    case CheckOwner => local.Done?
    case RemoveOwner => local.Releasing?
    case RemoveDir => local.RemovedOwner?
    case Tick(until) => s.now <= until
  }

  function Step(s: System, p: ProcessId, action: Action): System
    requires Enabled(s, p, action)
  {
    var local := At(s, p);
    match action
    case Call(op, token) => Moved(s, p, Trying(op, token, s.now + COMMAND_REGISTRY_LOCK_TIMEOUT_MS))
    case MakeDir =>
      if s.lock.Some? then Moved(s, p, Blocked(local.op, local.token, local.deadline))
      else Moved(s, p, Created(local.op, local.token)).(lock := Some(LockDir(None, s.now)), holder := Some(p), since := s.now)
    case WriteOwner =>
      if s.lock == None then Moved(s, p, Idle)
      else Moved(s, p, Locked(local.op, local.token)).(lock := Some(LockDir(Some(local.token), s.now)))
    case OwnerFails => Moved(s, p, Idle).(lock := None, holder := None)
    case TestStale =>
      if s.lock.Some? && s.now - s.lock.value.mtimeMs > COMMAND_REGISTRY_STALE_LOCK_MS
      then Moved(s, p, Breaking(local.op, local.token, local.deadline)) else s
    case BreakLock => Moved(s, p, Trying(local.op, local.token, local.deadline)).(lock := None, holder := None)
    case GiveUp => Moved(s, p, Idle)
    case Retry => Moved(s, p, Trying(local.op, local.token, local.deadline))
    case ReadFile => Moved(s, p, HasRead(local.op, local.token, s.file))
    case CommitWrite =>
      Moved(s, p, Done(local.token)).(
        file := (match Written(local.op, local.copy, s.now) case None => s.file case Some(commands) => commands),
        commits := s.commits + [Commit(local.op, s.now)])
    case WriteFails => Moved(s, p, Done(local.token))
    case CheckOwner =>
      if s.lock.Some? && s.lock.value.owner == Some(local.token) then Moved(s, p, Releasing) else Moved(s, p, Idle)
    case RemoveOwner =>
      Moved(s, p, RemovedOwner).(lock := if s.lock.Some? then Some(LockDir(None, s.now)) else None)
    case RemoveDir => Moved(s, p, Idle).(lock := None, holder := None)
    case Tick(until) => s.(now := until)
  }

  /** The assumption: while the lock is held the clock does not pass the stale limit since it was taken. */
  predicate Timely(s: System, action: Action) {
    action.Tick? && s.lock.Some? ==> action.until - s.since <= COMMAND_REGISTRY_STALE_LOCK_MS
  }

  predicate Starting(s: System) {
    s.lock == None && s.locals == map[] && s.holder == None && s.commits == [] && s.since <= s.now
  }

  function Run(s: System, steps: seq<(ProcessId, Action)>): System
    requires AllEnabled(s, steps)
    decreases |steps|
  {
    if steps == [] then s else Run(Step(s, steps[0].0, steps[0].1), steps[1..])
  }

  predicate AllEnabled(s: System, steps: seq<(ProcessId, Action)>)
    decreases |steps|
  {
    steps == [] || (Enabled(s, steps[0].0, steps[0].1) && AllEnabled(Step(s, steps[0].0, steps[0].1), steps[1..]))
  }

  predicate AllTimely(s: System, steps: seq<(ProcessId, Action)>)
    requires AllEnabled(s, steps)
    decreases |steps|
  {
    steps == [] || (Timely(s, steps[0].1) && AllTimely(Step(s, steps[0].0, steps[0].1), steps[1..]))
  }

  // ---- What holds in every timely run

  /** Only the process that took the lock is inside, and the lock directory is there and is its own. */
  ghost predicate Exclusive(s: System) {
    && (s.lock.Some? <==> s.holder.Some?)
    && (forall p: ProcessId :: Inside(At(s, p)) <==> s.holder == Some(p))
    && (forall p: ProcessId :: At(s, p).Locked? || At(s, p).HasRead? || At(s, p).Done? ==>
          s.lock.Some? && s.lock.value.owner == Some(At(s, p).token))
  }

  /** Nobody is about to break the lock, and nobody could find it stale. */
  ghost predicate NeverStale(s: System) {
    && s.since <= s.now && (forall p: ProcessId :: !At(s, p).Breaking?)
    && (s.lock.Some? ==> s.since <= s.lock.value.mtimeMs && s.now - s.since <= COMMAND_REGISTRY_STALE_LOCK_MS)
  }

  /** The copy a process has read is the file, and the file is the commits one after the other. */
  ghost predicate Faithful(s: System, initial: Commands) {
    && (forall p: ProcessId :: At(s, p).HasRead? ==> At(s, p).copy == s.file)
    && s.file == Serial(initial, s.commits)
  }

  ghost predicate Good(s: System, initial: Commands) {
    Exclusive(s) && NeverStale(s) && Faithful(s, initial)
  }

  lemma StepExclusive(s: System, p: ProcessId, action: Action, initial: Commands)
    requires Good(s, initial) && Enabled(s, p, action) && Timely(s, action)
    ensures Exclusive(Step(s, p, action))
  {
    var next := Step(s, p, action);
    assert Inside(At(s, p)) <==> s.holder == Some(p);
    forall q: ProcessId ensures Inside(At(next, q)) <==> next.holder == Some(q) {
      assert Inside(At(s, q)) <==> s.holder == Some(q);
    }
  }

  lemma StepNeverStale(s: System, p: ProcessId, action: Action, initial: Commands)
    requires Good(s, initial) && Enabled(s, p, action) && Timely(s, action)
    ensures NeverStale(Step(s, p, action))
  {
    assert Inside(At(s, p)) <==> s.holder == Some(p);
    forall q: ProcessId ensures !At(Step(s, p, action), q).Breaking? {
      assert !At(s, q).Breaking?;
    }
  }

  lemma StepFileIsSerial(s: System, p: ProcessId, action: Action, initial: Commands)
    requires Good(s, initial) && Enabled(s, p, action)
    ensures Step(s, p, action).file == Serial(initial, Step(s, p, action).commits)
  {
    if action.CommitWrite? {
      SerialGrows(initial, s.commits, Commit(At(s, p).op, s.now));
    }
  }

  lemma StepCopyIsFile(s: System, p: ProcessId, action: Action, initial: Commands, q: ProcessId)
    requires Good(s, initial) && Enabled(s, p, action) && Timely(s, action)
    requires At(Step(s, p, action), q).HasRead?
    ensures At(Step(s, p, action), q).copy == Step(s, p, action).file
  {
    assert Inside(At(s, q)) ==> s.holder == Some(q);
    assert Inside(At(s, p)) ==> s.holder == Some(p);
  }

  lemma StepFaithful(s: System, p: ProcessId, action: Action, initial: Commands)
    requires Good(s, initial) && Enabled(s, p, action) && Timely(s, action)
    ensures Faithful(Step(s, p, action), initial)
  {
    StepFileIsSerial(s, p, action, initial);
    forall q: ProcessId | At(Step(s, p, action), q).HasRead?
      ensures At(Step(s, p, action), q).copy == Step(s, p, action).file
    {
      StepCopyIsFile(s, p, action, initial, q);
    }
  }

  lemma {:induction false} RunGood(s: System, steps: seq<(ProcessId, Action)>, initial: Commands)
    requires Good(s, initial) && AllEnabled(s, steps) && AllTimely(s, steps)
    ensures Good(Run(s, steps), initial)
    decreases |steps|
  {
    if steps != [] {
      StepExclusive(s, steps[0].0, steps[0].1, initial);
      StepNeverStale(s, steps[0].0, steps[0].1, initial);
      StepFaithful(s, steps[0].0, steps[0].1, initial);
      RunGood(Step(s, steps[0].0, steps[0].1), steps[1..], initial);
    }
  }

  /**
   No update is lost. However the processes interleave, as long as nobody holds the lock past the stale limit:
   at most one process is between taking and releasing it, what it has read is the file until it writes, nobody
   breaks the lock, and the file is the committed operations applied one after the other.
   */
  lemma NoLostUpdate(s: System, steps: seq<(ProcessId, Action)>, p: ProcessId, q: ProcessId)
    requires Starting(s) && AllEnabled(s, steps) && AllTimely(s, steps)
    ensures
      var end := Run(s, steps);
      && (Inside(At(end, p)) && Inside(At(end, q)) ==> p == q)
      && (At(end, p).HasRead? ==> At(end, p).copy == end.file)
      && !At(end, p).Breaking?
      && end.file == Serial(s.file, end.commits)
  {
    assert Good(s, s.file);
    RunGood(s, steps, s.file);
    var end := Run(s, steps);
    assert Inside(At(end, p)) <==> end.holder == Some(p);
    assert Inside(At(end, q)) <==> end.holder == Some(q);
  }

  // ---- A call that is left alone

  lemma {:induction false} RunGoesOn(s: System, steps: seq<(ProcessId, Action)>, p: ProcessId, action: Action)
    requires AllEnabled(s, steps) && Enabled(Run(s, steps), p, action)
    ensures AllEnabled(s, steps + [(p, action)])
    ensures Run(s, steps + [(p, action)]) == Step(Run(s, steps), p, action)
    decreases |steps|
  {
    if steps == [] {
      assert (steps + [(p, action)])[1..] == [];
    } else {
      assert (steps + [(p, action)])[1..] == steps[1..] + [(p, action)];
      RunGoesOn(Step(s, steps[0].0, steps[0].1), steps[1..], p, action);
    }
  }

  /** The run so far, one step longer. */
  lemma OneMore(s: System, steps: seq<(ProcessId, Action)>, p: ProcessId, action: Action, before: System)
    returns (more: seq<(ProcessId, Action)>, after: System)
    requires AllEnabled(s, steps) && Run(s, steps) == before && Enabled(before, p, action)
    ensures more == steps + [(p, action)] && AllEnabled(s, more)
    ensures after == Step(before, p, action) == Run(s, more)
  {
    RunGoesOn(s, steps, p, action);
    more, after := steps + [(p, action)], Step(before, p, action);
  }

  /** A process that is done takes the lock away exactly if it is still its own; another's is left as it is. */
  lemma ReleasesOwnIff(s: System, p: ProcessId)
    requires Enabled(s, p, CheckOwner)
    ensures
      var next, mine := Step(s, p, CheckOwner), s.lock.Some? && s.lock.value.owner == Some(At(s, p).token);
      && (Enabled(next, p, RemoveOwner) <==> mine) && (At(next, p).Idle? <==> !mine)
      && next.lock == s.lock && next.file == s.file
  {
  }

  /** `t` is `s` with the process elsewhere and the lock in its hands. */
  predicate Holding(s: System, t: System, p: ProcessId, local: Local, token: OwnerToken) {
    t == s.(lock := Some(LockDir(Some(token), s.now)), locals := s.locals[p := local], holder := Some(p), since := s.now)
  }

  lemma TakesLock(s: System, p: ProcessId, op: Operation, token: OwnerToken)
    returns (r: seq<(ProcessId, Action)>, t: System)
    requires s.lock == None && At(s, p).Idle?
    ensures r == [(p, Call(op, token)), (p, MakeDir), (p, WriteOwner)]
    ensures AllEnabled(s, r) && Run(s, r) == t && Holding(s, t, p, Locked(op, token), token)
  {
    r, t := [], s;
    r, t := OneMore(s, r, p, Call(op, token), t);
    r, t := OneMore(s, r, p, MakeDir, t);
    r, t := OneMore(s, r, p, WriteOwner, t);
    assert t.locals == s.locals[p := Locked(op, token)];
  }

  lemma Commits(s: System, p: ProcessId, op: Operation, token: OwnerToken)
    returns (r: seq<(ProcessId, Action)>, t: System)
    requires s.lock == None && At(s, p).Idle?
    ensures r == [(p, Call(op, token)), (p, MakeDir), (p, WriteOwner), (p, ReadFile), (p, CommitWrite)]
    ensures AllEnabled(s, r) && Run(s, r) == t
    ensures Holding(s.(file := Applied(op, s.file, s.now), commits := s.commits + [Commit(op, s.now)]), t, p, Done(token), token)
  {
    r, t := TakesLock(s, p, op, token);
    r, t := OneMore(s, r, p, ReadFile, t);
    r, t := OneMore(s, r, p, CommitWrite, t);
    assert t.locals == s.locals[p := Done(token)];
  }

  /** A call that finds the lock free and is left alone commits its operation and leaves the lock free. */
  lemma OneCallGoesThrough(s: System, p: ProcessId, op: Operation, token: OwnerToken)
    returns (steps: seq<(ProcessId, Action)>, end: System)
    requires s.lock == None && At(s, p).Idle?
    ensures
      steps == [(p, Call(op, token)), (p, MakeDir), (p, WriteOwner), (p, ReadFile), (p, CommitWrite), (p, CheckOwner),
                (p, RemoveOwner), (p, RemoveDir)]
    ensures AllEnabled(s, steps) && Run(s, steps) == end
    ensures
      end == s.(file := Applied(op, s.file, s.now), commits := s.commits + [Commit(op, s.now)],
                lock := None, holder := None, locals := s.locals[p := Idle], since := s.now)
  {
    steps, end := Commits(s, p, op, token);
    steps, end := OneMore(s, steps, p, CheckOwner, end);
    steps, end := OneMore(s, steps, p, RemoveOwner, end);
    steps, end := OneMore(s, steps, p, RemoveDir, end);
    assert end.locals == s.locals[p := Idle];
  }

  predicate IsWaiting(local: Local) {
    local.Trying? || local.Blocked? || local.Breaking?
  }

  lemma StepKeepsDeadline(s: System, q: ProcessId, action: Action, p: ProcessId)
    requires Enabled(s, q, action) && !(q == p && action.Call?)
    ensures
      var before, after := At(s, p), At(Step(s, q, action), p);
      IsWaiting(after) ==> IsWaiting(before) && after.deadline == before.deadline
    ensures s.now <= Step(s, q, action).now
  {
  }

  lemma {:induction false} RunKeepsDeadline(s: System, steps: seq<(ProcessId, Action)>, p: ProcessId)
    requires AllEnabled(s, steps) && forall step <- steps :: !(step.0 == p && step.1.Call?)
    ensures
      var before, after := At(s, p), At(Run(s, steps), p);
      IsWaiting(after) ==> IsWaiting(before) && after.deadline == before.deadline
    decreases |steps|
  {
    if steps != [] {
      assert steps[0] in steps;
      StepKeepsDeadline(s, steps[0].0, steps[0].1, p);
      RunKeepsDeadline(Step(s, steps[0].0, steps[0].1), steps[1..], p);
    }
  }

  /** Nobody gives up waiting for the lock before the time allowed for it is over. */
  lemma GivesUpLate(s: System, p: ProcessId, op: Operation, token: OwnerToken, steps: seq<(ProcessId, Action)>)
    requires Enabled(s, p, Call(op, token)) && AllEnabled(Step(s, p, Call(op, token)), steps)
    requires forall step <- steps :: !(step.0 == p && step.1.Call?)
    requires Enabled(Run(Step(s, p, Call(op, token)), steps), p, GiveUp)
    ensures Run(Step(s, p, Call(op, token)), steps).now - s.now >= 5000
  {
    RunKeepsDeadline(Step(s, p, Call(op, token)), steps, p);
  }

  // ---- Why the assumption is needed

  const FIRST: Operation := Register(Key(1, 1), PLAIN_INPUT)
  const SECOND: Operation := Register(Key(2, 2), PLAIN_INPUT)
  const PLAIN_INPUT: Input := Input(Given(Some("run")), Absent, Absent, ExecutionInput(Absent, Absent, Absent))
  const EMPTY: System := System(None, map[], map[], 0, None, 0, [])

  /** The first process takes the lock, reads, and stalls past the limit. */
  const STALL: seq<(ProcessId, Action)> :=
    [(1, Call(FIRST, 1)), (1, MakeDir), (1, WriteOwner), (1, ReadFile), (1, Tick(COMMAND_REGISTRY_STALE_LOCK_MS + 1))]

  /** The second finds the lock stale, breaks it and takes it; then both write what they have read, changed. */
  const OVERTAKE: seq<(ProcessId, Action)> :=
    [(2, Call(SECOND, 2)), (2, MakeDir), (2, TestStale), (2, BreakLock), (2, MakeDir), (2, WriteOwner),
     (2, ReadFile), (2, CommitWrite), (1, CommitWrite)]

  lemma Stalls(s: System)
    requires s == EMPTY.(
               lock := Some(LockDir(Some(1), 0)), locals := map[1 := HasRead(FIRST, 1, map[])],
               now := COMMAND_REGISTRY_STALE_LOCK_MS + 1, holder := Some(1))
    ensures AllEnabled(EMPTY, STALL) && Run(EMPTY, STALL) == s
  {
    var r, t := [], EMPTY;
    r, t := OneMore(EMPTY, r, 1, Call(FIRST, 1), t);
    r, t := OneMore(EMPTY, r, 1, MakeDir, t);
    r, t := OneMore(EMPTY, r, 1, WriteOwner, t);
    r, t := OneMore(EMPTY, r, 1, ReadFile, t);
    assert t.locals == map[1 := HasRead(FIRST, 1, map[])];
    r, t := OneMore(EMPTY, r, 1, Tick(COMMAND_REGISTRY_STALE_LOCK_MS + 1), t);
    assert r == STALL;
  }

  lemma Overtakes(s: System)
    requires s == EMPTY.(
               lock := Some(LockDir(Some(1), 0)), locals := map[1 := HasRead(FIRST, 1, map[])],
               now := COMMAND_REGISTRY_STALE_LOCK_MS + 1, holder := Some(1))
    ensures AllEnabled(s, OVERTAKE)
    ensures
      var end := Run(s, OVERTAKE);
      && end.commits == [Commit(SECOND, s.now), Commit(FIRST, s.now)]
      && Key(2, 2) !in end.file
  {
    var r, t := SecondCommits(s);
    r, t := OneMore(s, r, 1, CommitWrite, t);
    assert r == OVERTAKE;
  }

  lemma SecondCommits(s: System) returns (r: seq<(ProcessId, Action)>, t: System)
    requires s == EMPTY.(
               lock := Some(LockDir(Some(1), 0)), locals := map[1 := HasRead(FIRST, 1, map[])],
               now := COMMAND_REGISTRY_STALE_LOCK_MS + 1, holder := Some(1))
    ensures r == OVERTAKE[..8] && AllEnabled(s, r) && Run(s, r) == t
    ensures At(t, 1) == HasRead(FIRST, 1, map[]) && t.commits == [Commit(SECOND, s.now)] && t.now == s.now
  {
    r, t := BreaksLock(s);
    r, t := OneMore(s, r, 2, WriteOwner, t);
    r, t := OneMore(s, r, 2, ReadFile, t);
    r, t := OneMore(s, r, 2, CommitWrite, t);
  }

  lemma BreaksLock(s: System) returns (r: seq<(ProcessId, Action)>, t: System)
    requires s == EMPTY.(
               lock := Some(LockDir(Some(1), 0)), locals := map[1 := HasRead(FIRST, 1, map[])],
               now := COMMAND_REGISTRY_STALE_LOCK_MS + 1, holder := Some(1))
    ensures r == OVERTAKE[..5] && AllEnabled(s, r) && Run(s, r) == t
    ensures At(t, 1) == HasRead(FIRST, 1, map[]) && At(t, 2) == Created(SECOND, 2)
    ensures t.lock.Some? && t.commits == [] && t.file == map[] && t.now == s.now
  {
    r, t := [], s;
    r, t := OneMore(s, r, 2, Call(SECOND, 2), t);
    r, t := OneMore(s, r, 2, MakeDir, t);
    r, t := OneMore(s, r, 2, TestStale, t);
    r, t := OneMore(s, r, 2, BreakLock, t);
    r, t := OneMore(s, r, 2, MakeDir, t);
  }

  /** Without the assumption an update can be lost: the second process's entry is committed and then gone. */
  lemma StalledHolderLosesUpdate()
    ensures AllEnabled(EMPTY, STALL) && !AllTimely(EMPTY, STALL)
    ensures AllEnabled(Run(EMPTY, STALL), OVERTAKE)
    ensures
      var end := Run(Run(EMPTY, STALL), OVERTAKE);
      Key(2, 2) in Serial(EMPTY.file, end.commits) && Key(2, 2) !in end.file
  {
    var s := EMPTY.(
      lock := Some(LockDir(Some(1), 0)), locals := map[1 := HasRead(FIRST, 1, map[])],
      now := COMMAND_REGISTRY_STALE_LOCK_MS + 1, holder := Some(1));
    Stalls(s);
    Overtakes(s);
    SerialGrows(EMPTY.file, [], Commit(SECOND, s.now));
    SerialGrows(EMPTY.file, [Commit(SECOND, s.now)], Commit(FIRST, s.now));
    assert [] + [Commit(SECOND, s.now)] == [Commit(SECOND, s.now)];
    assert [Commit(SECOND, s.now)] + [Commit(FIRST, s.now)] == [Commit(SECOND, s.now), Commit(FIRST, s.now)];
    OthersStay(FIRST, Serial(EMPTY.file, [Commit(SECOND, s.now)]), s.now, Key(2, 2));
    if AllTimely(EMPTY, STALL) {
      assert Good(EMPTY, EMPTY.file);
      RunGood(EMPTY, STALL, EMPTY.file);
      assert false;
    }
  }
}
