/**
 The client's side of a lease (src/coordinator/task-scope.ts) and the network
 between it and the table: every step of the scope, every delivery, loss and
 delay of its calls, and whatever other clients do.
 */
module TaskScopes {
  import opened Base
  import opened Leases
  import opened Workspaces

  datatype Grant = Grant(id: TaskId, token: LeaseToken)

  datatype Message = AskBegin | Beat(grant: Grant) | End(grant: Grant, outcome: Outcome)

  datatype Scope = Scope(lease: Option<Grant>, timer: bool, finished: bool, asked: bool)

  const NEW_SCOPE: Scope := Scope(None, false, false, false)

  // Each step gives the scope after it and the call it sends, if any.
  type Effect = (Scope, Option<Message>)

  /** begin: asks once, and not at all after the task has finished. */
  function Begun(s: Scope): Effect {
    if s.finished || s.asked then (s, None) else (s.(asked := true), Some(AskBegin))
  }

  /** The reply to the begin call; none when it failed. A lease that comes too late is handed back at once. */
  function Answered(s: Scope, answer: Option<Grant>): Effect {
    if answer == None then (s, None)
    else if s.finished then (s.(lease := answer), Some(End(answer.value, Cancelled)))
    else (s.(lease := answer, timer := true), None)
  }

  function HeartbeatSent(s: Scope): Effect {
    if s.finished || s.lease == None then (s, None) else (s, Some(Beat(s.lease.value)))
  }

  function Finished(s: Scope, outcome: Outcome): Effect {
    if s.finished then (s, None)
    else
      (s.(finished := true, timer := false),
       if s.lease == None then None else Some(End(s.lease.value, outcome)))
  }

  datatype Pending = Nothing | Reply(answer: Option<Grant>)

  /** How the task ended when it was first said to have ended, and whether the scope had its lease by then. */
  datatype Closure = Closure(outcome: Outcome, hadLease: bool)

  /**
   One scope, the table, and the calls between them. The last six fields are history: the lease granted to
   this scope, when it was last extended, how many finish calls were sent, whether one was lost, how the task
   ended, and whether a finish call reached the table while the lease was active.
   */
  datatype World = World(
    scope: Scope, task: TaskIntent, server: Coordinator, wire: multiset<Message>, pending: Pending,
    issued: Option<Grant>, touched: Time, ends: nat, endLost: bool, closed: Option<Closure>, endHeard: bool)

  datatype Move =
    | CallBegin
    | CallFinish(finishOutcome: Outcome)
    | TimerTick
    | Arrive(message: Message, given: Grant, at: Time)
    | ReplyArrives
    | ReplyLost
    | MessageLost(lost: Message)
    | Elsewhere(call: Call, when: Time)
    | Wait(until: Time)

  /** Every wire call may be delayed for ever, overtaken or lost; nobody else knows this scope's token. */
  predicate Possible(w: World, move: Move) {
    match move
    case CallBegin => true
    case CallFinish(_) => true
    case TimerTick => w.scope.timer
    case Arrive(m, given, at) => m in w.wire && w.server.now <= at && given.id !in w.server.leases
    case ReplyArrives => w.pending.Reply?
    case ReplyLost => w.pending.Reply?
    case MessageLost(m) => m in w.wire
    case Wait(until) => w.server.now <= until
    case Elsewhere(call, when) =>
      && Legal(w.server, call, when)
      && (w.issued.Some? ==> !(call.Heartbeat? && call.token == w.issued.value.token))
      && (w.issued.Some? ==> !(call.Finish? && call.token == w.issued.value.token))
  }

  function After(w: World, effect: Effect): World {
    match effect.1
    case None => w.(scope := effect.0)
    case Some(m) =>
      w.(scope := effect.0, wire := w.wire + multiset{m}, ends := w.ends + if m.End? then 1 else 0)
  }

  /** The table handles a call. */
  function Handled(w: World, m: Message, given: Grant, at: Time): World {
    var rest := w.(wire := w.wire - multiset{m});
    match m
    case AskBegin =>
      var server := Step(w.server, Begin(w.task, given.id, given.token), at);
      if given.id in server.leases
      then rest.(server := server, pending := Reply(Some(given)), issued := Some(given), touched := at)
      else rest.(server := server, pending := Reply(None))
    case Beat(grant) =>
      var touched := if Refusal(w.server.leases, grant.id, grant.token, at) == None then at else w.touched;
      rest.(server := Step(w.server, Heartbeat(grant.id, grant.token), at), touched := touched)
    case End(grant, outcome) =>
      var heard := grant.id in w.server.leases && Active(w.server.leases[grant.id], at);
      rest.(server := Step(w.server, Finish(grant.id, grant.token, outcome), at), endHeard := w.endHeard || heard)
  }

  function Next(w: World, move: Move): World {
    match move
    case CallBegin => After(w, Begun(w.scope))
    case CallFinish(outcome) =>
      var closed := if w.closed == None then Some(Closure(outcome, w.scope.lease.Some?)) else w.closed;
      After(w, Finished(w.scope, outcome)).(closed := closed)
    case TimerTick => After(w, HeartbeatSent(w.scope))
    case Arrive(m, given, at) => Handled(w, m, given, at)
    case ReplyArrives => if w.pending.Reply? then After(w, Answered(w.scope, w.pending.answer)).(pending := Nothing) else w
    // The client sees a failed call.
    case ReplyLost => After(w, Answered(w.scope, None)).(pending := Nothing)
    case MessageLost(m) => w.(wire := w.wire - multiset{m}, endLost := w.endLost || m.End?)
    case Elsewhere(call, when) => w.(server := Step(w.server, call, when))
    case Wait(until) => w.(server := w.server.(now := until))
  }

  predicate Started(w: World) {
    && w.scope == NEW_SCOPE && w.wire == multiset{} && w.pending == Nothing
    && w.issued == None && w.ends == 0 && !w.endLost && w.closed == None && !w.endHeard
  }

  // ---- What holds in every reachable world

  /** Calls on the wire carry the lease the scope has; a lease the scope has is the one granted. */
  predicate Wired(w: World) {
    && (w.scope.lease.Some? ==> w.scope.lease == w.issued && w.pending == Nothing)
    && (w.pending.Reply? && w.pending.answer.Some? ==> w.pending.answer == w.issued)
    && (forall m :: m in w.wire && m != AskBegin ==> w.scope.lease == Some(m.grant))
    && (forall m :: m in w.wire && m.End? ==> w.scope.finished)
    && w.ends == (if w.scope.finished && w.scope.lease.Some? then 1 else 0)
    && (w.scope.timer ==> w.scope.lease.Some? && !w.scope.finished)
  }

  /** At most one begin call is ever made. */
  predicate AskedOnce(w: World) {
    && w.wire[AskBegin] <= 1
    && (AskBegin in w.wire ==> w.scope.asked && w.issued == None && w.pending == Nothing)
    && (!w.scope.asked ==> w.issued == None && w.pending == Nothing)
  }

  /** The granted row: while open it runs out one time to live after it was last extended. */
  predicate Kept(w: World) {
    w.issued.Some? ==>
      && w.issued.value.id in w.server.leases
      && var row := w.server.leases[w.issued.value.id];
      && row.token == w.issued.value.token && row.ttlMs == w.task.ttlMs
      && (row.outcome == None ==> row.expiresAt == w.touched + row.ttlMs)
      && (w.scope.lease == None ==> w.touched == row.startedAt)
  }

  predicate Inactive(w: World) {
    && w.issued.Some? && w.issued.value.id in w.server.leases
    && !Active(w.server.leases[w.issued.value.id], w.server.now)
  }

  /** The finish call of a finished scope is on its way, was lost, or has done its work. */
  predicate Closing(w: World) {
    w.scope.finished && w.scope.lease.Some? ==>
      (exists outcome :: End(w.scope.lease.value, outcome) in w.wire) || w.endLost || Inactive(w)
  }

  /** The outcome to report: the one the scope was finished with, but `cancelled` of a lease that came after that. */
  function Due(closure: Closure): Outcome {
    if closure.hadLease then closure.outcome else Cancelled
  }

  /** Finish calls carry the outcome that is due. */
  predicate Reporting(w: World) {
    && (w.scope.finished <==> w.closed.Some?)
    && (w.closed.Some? && w.closed.value.hadLease ==> w.scope.lease.Some?)
    && (forall m :: m in w.wire && m.End? ==> w.closed.Some? && m.outcome == Due(w.closed.value))
  }

  /** The granted row has the outcome that is due if a finish call came in time, and else none or that it expired. */
  predicate Concluded(w: World) {
    && (w.endHeard ==> w.closed.Some? && w.issued.Some?)
    && (w.issued.Some? && w.issued.value.id in w.server.leases ==>
          var outcome := w.server.leases[w.issued.value.id].outcome;
          if w.endHeard then outcome == Some(Due(w.closed.value)) else outcome == None || outcome == Some(Expired))
  }

  predicate Inv(w: World) {
    Wired(w) && AskedOnce(w) && Kept(w) && Closing(w) && Reporting(w) && Concluded(w)
  }

  /** The moves of the scope itself; the others are the network's, the table's and the other clients'. */
  predicate Local(move: Move) {
    move.CallBegin? || move.CallFinish? || move.TimerTick? || move.ReplyArrives? || move.ReplyLost?
  }

  lemma LocalWired(w: World, move: Move)
    requires Inv(w) && Possible(w, move) && Local(move) && !move.ReplyArrives? && !move.CallFinish?
    ensures Wired(Next(w, move))
  {
  }

  lemma FinishWired(w: World, outcome: Outcome)
    requires Inv(w)
    ensures Wired(Next(w, CallFinish(outcome)))
  {
  }

  lemma ReplyWired(w: World)
    requires Inv(w) && Possible(w, ReplyArrives)
    ensures Wired(Next(w, ReplyArrives))
  {
  }

  /** Nothing but the scope puts calls on the wire. */
  lemma RemoteSendsNothing(w: World, move: Move)
    requires Possible(w, move) && !Local(move)
    ensures Next(w, move).wire <= w.wire && forall m :: m in Next(w, move).wire ==> m in w.wire
    ensures Next(w, move).scope == w.scope && Next(w, move).ends == w.ends
  {
    RemoteWire(w, move);
    var next := Next(w, move);
    forall m | m in next.wire ensures m in w.wire {
      assert next.wire[m] <= w.wire[m];
    }
  }

  lemma RemoteWire(w: World, move: Move)
    requires Possible(w, move) && !Local(move)
    ensures Next(w, move).scope == w.scope && Next(w, move).ends == w.ends
    ensures Next(w, move).wire ==
            match move
            case Arrive(m, _, _) => w.wire - multiset{m}
            case MessageLost(m) => w.wire - multiset{m}
            case _ => w.wire
  {
  }

  lemma RemoteWired(w: World, move: Move)
    requires Inv(w) && Possible(w, move) && !Local(move)
    ensures Wired(Next(w, move))
  {
    RemoteSendsNothing(w, move);
    if w.scope.lease.Some? && move.Arrive? {
      assert move.message != AskBegin;
    }
  }

  lemma BeginAskedOnce(w: World)
    requires AskedOnce(w)
    ensures AskedOnce(Next(w, CallBegin))
  {
    assert Next(w, CallBegin).wire[AskBegin] == w.wire[AskBegin] + if w.scope.finished || w.scope.asked then 0 else 1;
  }

  lemma AfterAsksNothing(w: World, effect: Effect)
    requires effect.1 != Some(AskBegin) && effect.0.asked == w.scope.asked
    ensures var next := After(w, effect);
            && next.wire[AskBegin] == w.wire[AskBegin] && next.scope.asked == w.scope.asked && next.issued == w.issued
            && next.pending == w.pending
  {
  }

  lemma LocalAsksNothing(w: World, move: Move)
    requires Local(move) && !move.CallBegin?
    ensures var next := Next(w, move);
            && next.wire[AskBegin] == w.wire[AskBegin] && next.scope.asked == w.scope.asked && next.issued == w.issued
            && (next.pending == w.pending || next.pending == Nothing)
  {
    match move
    case CallFinish(outcome) => AfterAsksNothing(w, Finished(w.scope, outcome));
    case TimerTick => AfterAsksNothing(w, HeartbeatSent(w.scope));
    case ReplyArrives =>
      if w.pending.Reply? {
        AfterAsksNothing(w, Answered(w.scope, w.pending.answer));
      }
    case ReplyLost => AfterAsksNothing(w, Answered(w.scope, None));
  }

  lemma LocalAskedOnce(w: World, move: Move)
    requires AskedOnce(w) && Possible(w, move) && Local(move)
    ensures AskedOnce(Next(w, move))
  {
    if move.CallBegin? {
      BeginAskedOnce(w);
    } else {
      LocalAsksNothing(w, move);
    }
  }

  lemma RemoteAskedOnce(w: World, move: Move)
    requires Inv(w) && Possible(w, move) && !Local(move)
    ensures AskedOnce(Next(w, move))
  {
    RemoteSendsNothing(w, move);
    var next := Next(w, move);
    assert next.wire[AskBegin] <= w.wire[AskBegin];
    if move.Arrive? && move.message == AskBegin {
      assert next.wire[AskBegin] == w.wire[AskBegin] - 1;
    } else if move.Arrive? {
      assert next.issued == w.issued && next.pending == w.pending;
    }
  }

  lemma LocalKept(w: World, move: Move)
    requires Inv(w) && Possible(w, move) && Local(move)
    ensures Kept(Next(w, move))
  {
  }

  lemma RemoteKept(w: World, move: Move)
    requires Inv(w) && Possible(w, move) && !Local(move)
    ensures Kept(Next(w, move))
  {
    if move.Elsewhere? {
      ElsewhereKept(w, move.call, move.when);
    } else if move.Arrive? && move.message.AskBegin? {
      BeginKept(w, move.given, move.at);
    }
  }

  lemma BeginKept(w: World, given: Grant, at: Time)
    requires Inv(w) && Possible(w, Arrive(AskBegin, given, at))
    ensures Kept(Next(w, Arrive(AskBegin, given, at)))
  {
  }

  /** Whoever else calls does not know the token, and can at most let the lease expire. */
  lemma ElsewhereKept(w: World, call: Call, when: Time)
    requires Inv(w) && Possible(w, Elsewhere(call, when))
    ensures Kept(Next(w, Elsewhere(call, when)))
  {
    if w.issued.Some? {
      StepFollows(w.server, call, when, w.issued.value.id);
    }
  }

  lemma LocalClosing(w: World, move: Move)
    requires Inv(w) && Possible(w, move) && Local(move)
    ensures Closing(Next(w, move))
  {
    var next := Next(w, move);
    if w.scope.lease.Some? && w.scope.finished && !w.endLost && !Inactive(w) {
      var outcome :| End(w.scope.lease.value, outcome) in w.wire;
      assert End(w.scope.lease.value, outcome) in next.wire;
    }
  }

  /** Once inactive, a lease is not revived by a late call or by anyone else. */
  lemma RemoteInactive(w: World, move: Move)
    requires Inv(w) && Possible(w, move) && !Local(move) && Inactive(w)
    ensures Inactive(Next(w, move))
  {
    var id := w.issued.value.id;
    match move
    case Elsewhere(call, when) => StepKeepsInactive(w.server, call, when, id);
    case Arrive(m, given, at) =>
      match m {
        case Beat(grant) => StepKeepsInactive(w.server, Heartbeat(grant.id, grant.token), at, id);
        case End(grant, outcome) => StepKeepsInactive(w.server, Finish(grant.id, grant.token, outcome), at, id);
        case AskBegin =>
      }
    case _ =>
  }

  /** A finish call on its way stays there, is lost, or ends the lease. */
  lemma RemoteCloses(w: World, move: Move, outcome: Outcome)
    requires Wired(w) && AskedOnce(w) && Kept(w) && Possible(w, move) && !Local(move) && w.scope.lease.Some?
    requires End(w.scope.lease.value, outcome) in w.wire
    ensures
      var next := Next(w, move);
      End(w.scope.lease.value, outcome) in next.wire || next.endLost || Inactive(next)
  {
    var call := End(w.scope.lease.value, outcome);
    if move.Arrive? && move.message == call {
      assert w.issued == w.scope.lease;
    } else if move.Arrive? {
      assert call in w.wire - multiset{move.message};
    } else if move.MessageLost? && move.lost != call {
      assert call in w.wire - multiset{move.lost};
    }
  }

  lemma RemoteClosing(w: World, move: Move)
    requires Inv(w) && Possible(w, move) && !Local(move)
    ensures Closing(Next(w, move))
  {
    if w.scope.finished && w.scope.lease.Some? && !w.endLost {
      if Inactive(w) {
        RemoteInactive(w, move);
      } else {
        var outcome :| End(w.scope.lease.value, outcome) in w.wire;
        RemoteCloses(w, move, outcome);
      }
    }
  }

  lemma NextClosed(w: World, move: Move)
    ensures Next(w, move).closed ==
            if move.CallFinish? && w.closed == None
            then Some(Closure(move.finishOutcome, w.scope.lease.Some?)) else w.closed
  {
  }

  lemma FinishReporting(w: World, outcome: Outcome)
    requires Wired(w) && Reporting(w)
    ensures Reporting(Next(w, CallFinish(outcome)))
  {
  }

  lemma ReplyReporting(w: World)
    requires Wired(w) && Reporting(w) && Possible(w, ReplyArrives)
    ensures Reporting(Next(w, ReplyArrives))
  {
  }

  lemma QuietReporting(w: World, move: Move)
    requires Reporting(w) && (move.CallBegin? || move.TimerTick? || move.ReplyLost?)
    ensures Reporting(Next(w, move))
  {
  }

  lemma RemoteReporting(w: World, move: Move)
    requires Reporting(w) && Possible(w, move) && !Local(move)
    ensures Reporting(Next(w, move))
  {
    RemoteSendsNothing(w, move);
    NextClosed(w, move);
  }

  lemma NextReporting(w: World, move: Move)
    requires Wired(w) && Reporting(w) && Possible(w, move)
    ensures Reporting(Next(w, move))
  {
    if !Local(move) {
      RemoteReporting(w, move);
    } else if move.CallFinish? {
      FinishReporting(w, move.finishOutcome);
    } else if move.ReplyArrives? {
      ReplyReporting(w);
    } else {
      QuietReporting(w, move);
    }
  }

  lemma LocalConcluded(w: World, move: Move)
    requires Inv(w) && Possible(w, move) && Local(move)
    ensures Concluded(Next(w, move))
  {
  }

  lemma EndConcludes(w: World, m: Message, given: Grant, at: Time)
    requires Inv(w) && Possible(w, Arrive(m, given, at)) && m.End?
    ensures Concluded(Next(w, Arrive(m, given, at)))
  {
    assert m != AskBegin && w.issued == Some(m.grant);
  }

  lemma RemoteConcluded(w: World, move: Move)
    requires Inv(w) && Possible(w, move) && !Local(move)
    ensures Concluded(Next(w, move))
  {
    match move
    case Elsewhere(call, when) =>
      if w.issued.Some? {
        var id := w.issued.value.id;
        StepFollows(w.server, call, when, id);
        if w.server.leases[id].outcome == None {
          OnlyFinishConcludes(w.server, call, when, id);
        }
      }
    case Arrive(m, given, at) =>
      if m.End? {
        EndConcludes(w, m, given, at);
      } else if m.Beat? {
        assert w.issued == Some(m.grant);
      }
    case _ =>
  }

  /** Whatever happens next, the invariant stays. */
  lemma NextKeeps(w: World, move: Move)
    requires Inv(w) && Possible(w, move)
    ensures Inv(Next(w, move))
  {
    NextReporting(w, move);
    if Local(move) {
      if move.ReplyArrives? {
        ReplyWired(w);
      } else if move.CallFinish? {
        FinishWired(w, move.finishOutcome);
      } else {
        LocalWired(w, move);
      }
      LocalAskedOnce(w, move);
      LocalKept(w, move);
      LocalClosing(w, move);
      LocalConcluded(w, move);
    } else {
      RemoteWired(w, move);
      RemoteAskedOnce(w, move);
      RemoteKept(w, move);
      RemoteClosing(w, move);
      RemoteConcluded(w, move);
    }
  }

  // ---- Whole runs

  function Run(w: World, moves: seq<Move>): World
    decreases |moves|
  {
    if moves == [] then w else Run(Next(w, moves[0]), moves[1..])
  }

  predicate PossibleRun(w: World, moves: seq<Move>)
    decreases |moves|
  {
    moves == [] || (Possible(w, moves[0]) && PossibleRun(Next(w, moves[0]), moves[1..]))
  }

  lemma {:induction false} RunKeeps(w: World, moves: seq<Move>)
    requires Inv(w) && PossibleRun(w, moves)
    ensures Inv(Run(w, moves))
    decreases |moves|
  {
    if moves != [] {
      NextKeeps(w, moves[0]);
      RunKeeps(Next(w, moves[0]), moves[1..]);
    }
  }

  /**
   No lease is orphaned. However calls are delayed, reordered and lost: one finish call is sent for a lease
   whose begin reply reached a scope that has finished, and none otherwise; and when no finish call is
   outstanding and none was lost, that lease is not active.
   */
  lemma NoOrphan(w: World, moves: seq<Move>)
    requires Started(w) && PossibleRun(w, moves)
    ensures
      var end := Run(w, moves);
      && (end.scope.lease.Some? ==> end.scope.lease == end.issued)
      && end.ends == (if end.scope.finished && end.scope.lease.Some? then 1 else 0)
      && (end.scope.finished && end.scope.lease.Some? && !end.endLost && (forall m :: m in end.wire ==> !m.End?)
          ==> Inactive(end))
  {
    RunKeeps(w, moves);
  }

  /** The outcome of the first finish among some moves. */
  function FirstFinish(moves: seq<Move>): Option<Outcome> {
    if moves == [] then None
    else if moves[0].CallFinish? then Some(moves[0].finishOutcome)
    else FirstFinish(moves[1..])
  }

  lemma {:induction false} ClosedByFirst(w: World, moves: seq<Move>)
    ensures
      var closed := Run(w, moves).closed;
      if w.closed.Some? then closed == w.closed
      else closed.Some? == FirstFinish(moves).Some? && (closed.Some? ==> closed.value.outcome == FirstFinish(moves).value)
    decreases |moves|
  {
    if moves != [] {
      NextClosed(w, moves[0]);
      ClosedByFirst(Next(w, moves[0]), moves[1..]);
    }
  }

  /**
   The outcome the task was first finished with is the one reported: it is in every finish call that is sent if
   the scope had its lease by then, and `cancelled` is if the lease came later. The lease is recorded with that
   outcome if the call reached it while it was active, and otherwise it has none or has expired.
   */
  lemma OutcomeIsReported(w: World, moves: seq<Move>)
    requires Started(w) && PossibleRun(w, moves)
    ensures
      var end := Run(w, moves);
      && (end.closed.Some? <==> FirstFinish(moves).Some?)
      && (end.closed.Some? ==>
            var due := if end.closed.value.hadLease then FirstFinish(moves).value else Cancelled;
            && (forall m :: m in end.wire && m.End? ==> m.outcome == due)
            && (end.endHeard ==>
                  && end.issued.Some? && end.issued.value.id in end.server.leases
                  && end.server.leases[end.issued.value.id].outcome == Some(due)))
      && (end.issued.Some? && !end.endHeard ==>
            && end.issued.value.id in end.server.leases
            && var outcome := end.server.leases[end.issued.value.id].outcome;
            outcome == None || outcome == Some(Expired))
  {
    RunKeeps(w, moves);
    ClosedByFirst(w, moves);
  }

  /**
   A granted lease is inactive one time to live after it was last extended, finish call or not; and one whose
   reply has not reached the scope was never extended since it started.
   */
  lemma LeaseRunsOut(w: World, moves: seq<Move>)
    requires Started(w) && PossibleRun(w, moves) && Run(w, moves).issued.Some?
    ensures
      var end := Run(w, moves);
      var id := end.issued.value.id;
      && id in end.server.leases
      && (end.server.now >= end.touched + end.task.ttlMs ==> Inactive(end))
      && (end.scope.lease == None && end.server.now >= end.server.leases[id].startedAt + end.task.ttlMs ==> Inactive(end))
  {
    RunKeeps(w, moves);
  }

  lemma NextInactive(w: World, move: Move)
    requires Inv(w) && Possible(w, move) && Inactive(w)
    ensures Inactive(Next(w, move))
  {
    if !Local(move) {
      RemoteInactive(w, move);
    }
  }

  /** A late heartbeat, a second begin or any other call never revives the lease. */
  lemma {:induction false} NeverRevived(w: World, moves: seq<Move>)
    requires Inv(w) && PossibleRun(w, moves) && Inactive(w)
    ensures Inactive(Run(w, moves)) && Run(w, moves).issued == w.issued
    decreases |moves|
  {
    if moves != [] {
      NextKeeps(w, moves[0]);
      NextInactive(w, moves[0]);
      NeverRevived(Next(w, moves[0]), moves[1..]);
    }
  }

  // ---- What happens when nothing is lost

  /** A begin call that is answered gives the scope a lease on the normal form of its workspace, and starts the timer. */
  lemma BeginTakesLease(w: World, given: Grant, at: Time)
    requires Started(w) && w.server.now <= at && given.id !in w.server.leases
    requires Normalized(w.task.workspace).Ok?
    ensures
      var moves := [CallBegin, Arrive(AskBegin, given, at), ReplyArrives];
      var end := Run(w, moves);
      && PossibleRun(w, moves)
      && end.scope == Scope(Some(given), true, false, true) && end.wire == multiset{} && end.issued == Some(given)
      && given.id in end.server.leases
      && end.server.leases[given.id] ==
         Lease(w.task.clientId, Normalized(w.task.workspace).value, w.task.kind, w.task.ttlMs, given.token, at,
               at + w.task.ttlMs, None)
  {
    var w1 := Next(w, CallBegin);
    var w2 := Next(w1, Arrive(AskBegin, given, at));
    var w3 := Next(w2, ReplyArrives);
    assert w1.wire == multiset{AskBegin} && w2.pending == Reply(Some(given));
    RunOfThree(w, CallBegin, Arrive(AskBegin, given, at), ReplyArrives);
    assert w3.wire == multiset{};
  }

  lemma TickSends(w: World)
    requires w.scope.lease.Some? && !w.scope.finished
    ensures Next(w, TimerTick) == w.(wire := w.wire + multiset{Beat(w.scope.lease.value)})
    ensures Beat(w.scope.lease.value) in Next(w, TimerTick).wire
  {
  }

  lemma BeatIsHeard(w: World, grant: Grant, given: Grant, at: Time)
    requires grant.id in w.server.leases && w.server.leases[grant.id].token == grant.token
    requires Active(w.server.leases[grant.id], at)
    ensures var row, next := w.server.leases[grant.id], Next(w, Arrive(Beat(grant), given, at));
            && next.server.leases == w.server.leases[grant.id := row.(expiresAt := at + row.ttlMs)]
            && next.server.now == at
  {
  }

  /** A tick of the timer that reaches an active lease extends it by a whole time to live from then. */
  lemma BeatExtends(w: World, given: Grant, at: Time)
    requires Inv(w) && w.scope.timer && w.server.now <= at && given.id !in w.server.leases
    requires Active(w.server.leases[w.scope.lease.value.id], at)
    ensures
      var grant := w.scope.lease.value;
      var sent, heard := Next(w, TimerTick), Next(Next(w, TimerTick), Arrive(Beat(grant), given, at));
      && Possible(w, TimerTick) && Possible(sent, Arrive(Beat(grant), given, at)) && grant.id in heard.server.leases
      && heard.server.leases[grant.id] == w.server.leases[grant.id].(expiresAt := at + w.task.ttlMs)
  {
    TickSends(w);
    BeatIsHeard(Next(w, TimerTick), w.scope.lease.value, given, at);
  }

  /** A finish whose call reaches the active lease records its outcome. */
  lemma FinishRecords(w: World, outcome: Outcome, given: Grant, at: Time)
    requires Inv(w) && w.scope.lease.Some? && !w.scope.finished && w.server.now <= at && given.id !in w.server.leases
    requires Active(w.server.leases[w.scope.lease.value.id], at)
    ensures
      var grant := w.scope.lease.value;
      var sent := Next(w, CallFinish(outcome));
      var heard := Next(sent, Arrive(End(grant, outcome), given, at));
      && Possible(sent, Arrive(End(grant, outcome), given, at)) && grant.id in heard.server.leases
      && heard.server.leases[grant.id] == w.server.leases[grant.id].(outcome := Some(outcome), expiresAt := at)
  {
    assert End(w.scope.lease.value, outcome) in Next(w, CallFinish(outcome)).wire;
  }

  lemma RunOfThree(w: World, a: Move, b: Move, c: Move)
    ensures Run(w, [a, b, c]) == Next(Next(Next(w, a), b), c)
    ensures PossibleRun(w, [a, b, c]) <==>
            Possible(w, a) && Possible(Next(w, a), b) && Possible(Next(Next(w, a), b), c)
  {
    assert [a, b, c][1..] == [b, c] && [b, c][1..] == [c] && [c][1..] == [];
    var w1 := Next(w, a);
    var w2 := Next(w1, b);
    assert Run(w2, [c]) == Run(Next(w2, c), []) && PossibleRun(Next(w2, c), []);
    assert Run(w1, [b, c]) == Run(w2, [c]) && (PossibleRun(w1, [b, c]) <==> Possible(w1, b) && PossibleRun(w2, [c]));
  }

  // ---- The scope as a class

  datatype Metadata =
    | Unknown
    | CoordinationUnavailable
    | TooLate(taskId: TaskId, conflicts: LeaseTable, observed: seq<Activity>)
    | Available(taskId: TaskId, conflicts: LeaseTable, observed: seq<Activity>, warning: bool)

  /** What the caller is told once the begin call is answered, and whether the task had finished by then. */
  function Answer(response: Option<BeginResult>, finished: bool): Metadata {
    match response
    case None => CoordinationUnavailable
    case Some(r) =>
      if finished then TooLate(r.taskId, r.conflicts, r.observed)
      else Available(r.taskId, r.conflicts, r.observed, r.conflicts != map[] || r.observed != [])
  }

  /** The caller is given what the reply says in either case, and has the lease only if its task had not finished. */
  lemma AnswerTells(response: Option<BeginResult>, finished: bool)
    ensures
      var told := Answer(response, finished);
      && (told == CoordinationUnavailable <==> response == None)
      && (told.Available? <==> response.Some? && !finished) && (told.TooLate? <==> response.Some? && finished)
      && (told.Available? || told.TooLate? ==>
            && told.taskId == response.value.taskId
            && told.conflicts == response.value.conflicts && told.observed == response.value.observed)
  {
  }

  /**
   A caller is warned exactly of activity in its way: an active clashing lease, or a process observed near the
   workspace. A read is never warned.
   */
  lemma WarnedIff(leases: LeaseTable, task: TaskIntent, workspace: string, processes: seq<Activity>, r: BeginResult)
    requires r.conflicts == Conflicts(leases, task.kind, workspace, r.startedAt)
    requires r.observed == if task.kind == Read then [] else Nearby(processes, workspace)
    ensures Answer(Some(r), false) == Available(r.taskId, r.conflicts, r.observed, true) <==>
            && task.kind != Read
            && ((exists id :: id in leases && Active(leases[id], r.startedAt)
                              && Clash(task.kind, workspace, leases[id].kind, leases[id].workspace))
                || exists a :: a in processes && IsNear(a, workspace))
  {
    if r.conflicts != map[] {
      assert r.conflicts.Keys != {};
      var id :| id in r.conflicts.Keys;
      assert id in leases && Active(leases[id], r.startedAt)
             && Clash(task.kind, workspace, leases[id].kind, leases[id].workspace);
    }
    if id :| id in leases && Active(leases[id], r.startedAt)
             && Clash(task.kind, workspace, leases[id].kind, leases[id].workspace) {
      assert id in r.conflicts;
    }
    forall a ensures a in Nearby(processes, workspace) <==> a in processes && IsNear(a, workspace) {
      NearbyTells(processes, workspace, a);
    }
    assert r.observed != [] ==> r.observed[0] in r.observed;
  }

  /** The asynchronous methods are split at their awaits; each part returns the call it sends. */
  class CoordinatorTaskScope {
    var taskId: Option<TaskId>
    var leaseToken: Option<LeaseToken>
    var heartbeatTimer: bool
    var finished: bool
    var begun: bool
    var metadata: Metadata

    predicate Valid()
      reads this
    {
      taskId.Some? == leaseToken.Some?
    }

    function View(): Scope
      requires Valid()
      reads this
    {
      Scope(if taskId.Some? then Some(Grant(taskId.value, leaseToken.value)) else None, heartbeatTimer, finished, begun)
    }

    constructor ()
      ensures Valid() && View() == NEW_SCOPE && metadata == Unknown
    {
      taskId, leaseToken, heartbeatTimer, finished, begun := None, None, false, false, false;
      metadata := Unknown;
    }

    method Begin() returns (send: Option<Message>)
      requires Valid()
      modifies this
      ensures Valid() && (View(), send) == Begun(old(View())) && metadata == old(metadata)
    {
      if finished || begun {
        return None;
      }
      begun := true;
      return Some(AskBegin);
    }

    method BeginReplied(response: Option<BeginResult>) returns (send: Option<Message>)
      requires Valid()
      modifies this
      ensures Valid()
      ensures (View(), send) == Answered(old(View()), if response.Some? then Some(Grant(response.value.taskId, response.value.leaseToken)) else None)
      ensures metadata == Answer(response, old(finished))
    {
      if response == None {
        metadata := CoordinationUnavailable;
        return None;
      }
      var data := response.value;
      taskId, leaseToken := Some(data.taskId), Some(data.leaseToken);
      if finished {
        metadata := TooLate(data.taskId, data.conflicts, data.observed);
        return Some(End(Grant(data.taskId, data.leaseToken), Cancelled));
      }
      metadata := Available(data.taskId, data.conflicts, data.observed, data.conflicts != map[] || |data.observed| > 0);
      heartbeatTimer := true;
      return None;
    }

    method Heartbeat() returns (send: Option<Message>)
      requires Valid()
      ensures (View(), send) == HeartbeatSent(View())
    {
      if finished || taskId == None || leaseToken == None {
        return None;
      }
      return Some(Beat(Grant(taskId.value, leaseToken.value)));
    }

    method Finish(outcome: Outcome) returns (send: Option<Message>)
      requires Valid()
      modifies this
      ensures Valid() && (View(), send) == Finished(old(View()), outcome) && metadata == old(metadata)
    {
      if finished {
        return None;
      }
      finished := true;
      heartbeatTimer := false;
      if taskId.Some? && leaseToken.Some? {
        return Some(End(Grant(taskId.value, leaseToken.value), outcome));
      }
      return None;
    }

    method Dispose() returns (send: Option<Message>)
      requires Valid()
      modifies this
      ensures Valid() && (View(), send) == Finished(old(View()), Cancelled) && metadata == old(metadata)
    {
      send := Finish(Cancelled);
    }
  }
}
