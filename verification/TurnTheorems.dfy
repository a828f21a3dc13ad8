/** What holds along every run of the turn and playback protocol. */
module TurnTheorems {
  import opened Collections
  import opened Sessions
  import opened SessionSteps
  import opened Playback
  import opened PlaybackEffects
  import opened TurnProtocol
  import opened TurnProtocolProofs

  datatype Timed = Timed(op: Op, now: int)

  /** Every id handed out during the run is new. */
  ghost predicate FreshRun(cfg: Config, s: System, ops: seq<Timed>)
    requires SystemInv(cfg, s)
    decreases |ops|
  {
    ops == [] ||
    (FreshIds(s, ops[0].op) &&
     (StepInv(cfg, s, ops[0].op, ops[0].now);
      FreshRun(cfg, Step(cfg, s, ops[0].op, ops[0].now).0, ops[1..])))
  }

  ghost function Run(cfg: Config, s: System, ops: seq<Timed>): (r: System)
    requires SystemInv(cfg, s) && FreshRun(cfg, s, ops)
    ensures SystemInv(cfg, r)
    decreases |ops|
  {
    if ops == [] then s
    else
      StepInv(cfg, s, ops[0].op, ops[0].now);
      Run(cfg, Step(cfg, s, ops[0].op, ops[0].now).0, ops[1..])
  }

  // ------------------------------------------------------ sessions over time

  /** Ids stay taken; a stored session was there before, or is brand new and empty;
      a turn that appears in a session has an id never used before. */
  ghost predicate SystemStep(s: System, s': System) {
    && s.sessionIds <= s'.sessionIds && s.turnIds <= s'.turnIds
    && forall id {:trigger id in s'.store.sessions} :: id in s'.store.sessions ==>
         if id in s.store.sessions then
           && SessionStep(s.store.sessions[id], s'.store.sessions[id])
           && forall t ::
                t in s'.store.sessions[id].turns ==> t.id in TurnIds(s.store.sessions[id].turns) || t.id !in s.turnIds
         else id !in s.sessionIds && s'.store.sessions[id].turns == []
  }

  lemma QuietSystemStep(s: System, s': System)
    requires s'.sessionIds == s.sessionIds && s'.turnIds == s.turnIds
    requires StoreStep(s.store, s'.store) && KeepsTurnIds(s.store, s'.store)
    ensures SystemStep(s, s')
  {
    forall id | id in s'.store.sessions
      ensures forall t :: t in s'.store.sessions[id].turns ==> t.id in TurnIds(s.store.sessions[id].turns)
    {
      forall t | t in s'.store.sessions[id].turns ensures t.id in TurnIds(s.store.sessions[id].turns) {
        assert t.id in TurnIds(s'.store.sessions[id].turns);
      }
    }
  }

  lemma CreateSystemStep(cfg: Config, s: System, op: Op, now: int)
    requires SystemInv(cfg, s) && op.Create? && FreshIds(s, op)
    ensures SystemStep(s, Step(cfg, s, op, now).0)
  {
    CreateStepIs(cfg, s, op, now);
    CreateKeepsOk(cfg.lim, s.store, op.clientId, op.context, op.candidates, now);
    forall id | id in s.store.sessions
      ensures SessionStep(s.store.sessions[id], s.store.sessions[id]) && id in s.sessionIds
    {
      SameStep(s.store.sessions[id]);
      assert SessionKnown(s, id);
    }
  }

  lemma BeginSystemStep(cfg: Config, s: System, op: Op, now: int)
    requires SystemInv(cfg, s) && op.Begin? && FreshIds(s, op)
    ensures SystemStep(s, Step(cfg, s, op, now).0)
  {
    BeginOutline(s.store, cfg.lim, op.sessionId, op.origin, op.userText, op.initial, op.candidates, now);
    BeginStep(s.store, cfg.lim, op.sessionId, op.origin, op.userText, op.initial, op.candidates, now);
    var (st, out) := BeginTurn(s.store, cfg.lim, op.sessionId, op.origin, op.userText, op.initial, op.candidates, now);
    var s' := Step(cfg, s, op, now).0;
    forall id | id in s'.store.sessions
      ensures forall t ::
                t in s'.store.sessions[id].turns ==> t.id in TurnIds(s.store.sessions[id].turns) || t.id !in s.turnIds
    {
      forall t | t in s'.store.sessions[id].turns
        ensures t.id in TurnIds(s.store.sessions[id].turns) || t.id !in s.turnIds
      {
        assert t.id in TurnIds(s'.store.sessions[id].turns);
      }
    }
  }

  lemma TokenSystemStep(cfg: Config, s: System, op: Op, now: int)
    requires SystemInv(cfg, s) && (op.Move? || op.End? || op.Commit?)
    ensures SystemStep(s, Step(cfg, s, op, now).0)
  {
    match op {
      case Move(token, stage, failure) =>
        TransitionStep(cfg.lim, s.store, token, stage, failure, now);
        TransitionIds(s.store, token, stage, failure, now);
      case End(token, stage, failure) =>
        TerminalizeStep(cfg.lim, s.store, token, stage, failure, now);
        TerminalizeIds(s.store, token, stage, failure, now);
      case Commit(token, role, text) =>
        CommitStep(cfg.lim, s.store, token, role, text, now);
        CommitIds(cfg.lim, s.store, token, role, text, now);
    }
    QuietSystemStep(s, Step(cfg, s, op, now).0);
  }

  lemma SessionSystemStep(cfg: Config, s: System, op: Op, now: int)
    requires SystemInv(cfg, s) && (op.CancelTurn? || op.Close? || op.Context? || op.Pending?)
    ensures SystemStep(s, Step(cfg, s, op, now).0)
  {
    match op {
      case CancelTurn(id) => CancelStep(cfg.lim, s.store, id, None, now); CancelIds(s.store, id, None, now);
      case Close(id) => CloseStep(cfg.lim, s.store, id, now); CloseIds(s.store, id, now);
      case _ => FieldSystemStep(cfg, s, op, now);
    }
    QuietSystemStep(s, Step(cfg, s, op, now).0);
  }

  lemma FieldSystemStep(cfg: Config, s: System, op: Op, now: int)
    requires SystemInv(cfg, s) && (op.Context? || op.Pending?)
    ensures var s' := Step(cfg, s, op, now).0;
            && s'.sessionIds == s.sessionIds && s'.turnIds == s.turnIds
            && StoreStep(s.store, s'.store) && KeepsTurnIds(s.store, s'.store)
  {
    match op {
      case Context(id, changes, clear) =>
        ContextStepIs(cfg, s, id, changes, clear, now);
        UpdateContextStep(cfg.lim, s.store, id, changes, clear, now);
      case Pending(id, request) =>
        PendingStepIs(cfg, s, id, request, now);
        SetPendingStep(cfg.lim, s.store, id, request, now);
    }
  }

  lemma QueueOpsKeepStore(cfg: Config, s: System, op: Op, now: int)
    requires SystemInv(cfg, s) && (op.StopPlayback? || op.Speak? || op.Poll? || op.Acked?)
    ensures var s' := Step(cfg, s, op, now).0;
            s'.store == s.store && s'.sessionIds == s.sessionIds && s'.turnIds == s.turnIds
  {
  }

  lemma QueueSystemStep(cfg: Config, s: System, op: Op, now: int)
    requires SystemInv(cfg, s) && (op.StopPlayback? || op.Speak? || op.Poll? || op.Acked?)
    ensures SystemStep(s, Step(cfg, s, op, now).0)
  {
    QueueOpsKeepStore(cfg, s, op, now);
    IdleStep(s.store);
    QuietSystemStep(s, Step(cfg, s, op, now).0);
  }

  lemma StepSystemStep(cfg: Config, s: System, op: Op, now: int)
    requires SystemInv(cfg, s) && FreshIds(s, op)
    ensures SystemStep(s, Step(cfg, s, op, now).0)
  {
    if op.Create? { CreateSystemStep(cfg, s, op, now); }
    else if op.Begin? { BeginSystemStep(cfg, s, op, now); }
    else if op.Move? || op.End? || op.Commit? { TokenSystemStep(cfg, s, op, now); }
    else if op.CancelTurn? || op.Close? || op.Context? || op.Pending? { SessionSystemStep(cfg, s, op, now); }
    else { QueueSystemStep(cfg, s, op, now); }
  }

  // ------------------------------------------------------ cancellation safety

  /** Session `id` has reached generation `g`: it never goes back, even by being evicted. */
  ghost predicate Reached(s: System, id: Id, g: nat) {
    id in s.sessionIds && (id in s.store.sessions ==> s.store.sessions[id].generation >= g)
  }

  predicate StaleFor(t: Token, id: Id, g: nat) {
    t.sessionId == id && t.generation < g
  }

  lemma CancelReaches(cfg: Config, s: System, id: Id, now: int)
    requires SystemInv(cfg, s) && id in s.store.sessions
    ensures var g := s.store.sessions[id].generation + 1;
            && Step(cfg, s, CancelTurn(id), now).1 == Generation(Ok(g))
            && Reached(Step(cfg, s, CancelTurn(id), now).0, id, g)
            && Reached(Step(cfg, s, Close(id), now).0, id, g)
  {
    assert SessionKnown(s, id);
  }

  lemma {:induction false} ReachedForever(cfg: Config, s: System, ops: seq<Timed>, id: Id, g: nat)
    requires SystemInv(cfg, s) && FreshRun(cfg, s, ops) && Reached(s, id, g)
    ensures Reached(Run(cfg, s, ops), id, g)
    decreases |ops|
  {
    if ops != [] {
      var s' := Step(cfg, s, ops[0].op, ops[0].now).0;
      StepInv(cfg, s, ops[0].op, ops[0].now);
      StepSystemStep(cfg, s, ops[0].op, ops[0].now);
      ReachedForever(cfg, s', ops[1..], id, g);
    }
  }

  /** The work a stale token can still do: none. */
  ghost predicate Refused(s: System, op: Op, s': System, answer: Answer) {
    && s'.store == s.store && s'.queue == s.queue
    && match op
       case Move(token, stage, _) => answer.Moved? && answer.moved.Ok? && (answer.moved.value ==> Terminal(stage))
       case End(token, stage, _) => answer.Moved? && (answer.moved == Ok(true) ==> Terminal(stage))
       case Commit(token, _, _) => answer == Moved(Ok(false))
       case Speak(_, token, _, _, _) => answer == Spoken(Ok(None))
       case _ => true
  }

  /** A step after session `id` reached generation `g`: tokens below `g` are refused
      without effect, their turns and messages stay as they are, and no PLAY is for them. */
  ghost predicate SilentStep(s: System, op: Op, s': System, answer: Answer, id: Id, g: nat) {
    && ((op.Move? || op.End? || op.Commit? || op.Speak?) && StaleFor(op.token, id, g) ==> Refused(s, op, s', answer))
    && (answer.Polled? && answer.command.Some? && answer.command.value.kind.Play? ==>
          !StaleFor(answer.command.value.token, id, g))
    && (id in s'.store.sessions && id in s.store.sessions ==>
          var now, before := s'.store.sessions[id], s.store.sessions[id];
          && (forall t :: t in now.turns && t.generation < g ==> t in before.turns)
          && (now.history == before.history || now.history == []
              || exists m: Message, bound: nat :: bound >= 1 && now.history == PushBounded(before.history, m, bound)
                   && OpenToken(id, now) == Some(Token(id, m.turnId, now.generation)) && now.generation >= g))
    && (id in s'.store.sessions && id !in s.store.sessions ==> false)
  }

  lemma StaleNotAccepted(cfg: Config, s: System, t: Token, id: Id, g: nat)
    requires SystemInv(cfg, s) && Reached(s, id, g) && StaleFor(t, id, g)
    ensures !Accepts(s.store, t)
  {
  }

  lemma StaleRefused(cfg: Config, s: System, op: Op, now: int, id: Id, g: nat)
    requires SystemInv(cfg, s) && FreshIds(s, op) && Reached(s, id, g)
    requires (op.Move? || op.End? || op.Commit? || op.Speak?) && StaleFor(op.token, id, g)
    ensures var (s', answer) := Step(cfg, s, op, now); Refused(s, op, s', answer)
  {
    StaleNotAccepted(cfg, s, op.token, id, g);
  }

  lemma SilentHistory(cfg: Config, s: System, op: Op, now: int, id: Id, g: nat)
    requires SystemInv(cfg, s) && FreshIds(s, op) && Reached(s, id, g)
    requires id in s.store.sessions && id in Step(cfg, s, op, now).0.store.sessions
    ensures var (s', answer) := Step(cfg, s, op, now);
            var after, before := s'.store.sessions[id], s.store.sessions[id];
            && (forall t :: t in after.turns && t.generation < g ==> t in before.turns)
            && (after.history == before.history || after.history == []
              || exists m: Message, bound: nat :: bound >= 1 && after.history == PushBounded(before.history, m, bound)
                   && OpenToken(id, after) == Some(Token(id, m.turnId, after.generation)) && after.generation >= g)
  {
    var s' := Step(cfg, s, op, now).0;
    StepSystemStep(cfg, s, op, now);
    var after, before := s'.store.sessions[id], s.store.sessions[id];
    assert SessionStep(before, after);
    forall t | t in after.turns && t.generation < g ensures t in before.turns {
      assert TurnStep(before, after, t);
    }
    if after.history != before.history && after.history != [] {
      var m: Message, bound: nat :| bound >= 1 && after.history == PushBounded(before.history, m, bound)
          && OpenToken("", after) == Some(Token("", m.turnId, after.generation));
      assert OpenToken(id, after) == Some(Token(id, m.turnId, after.generation));
    }
  }

  /** Once cancelling or closing has raised a session to generation `g`, nothing any
      later run does acts for a token of that session below `g`: whatever happened in
      between, with the tombstone kept or long dropped, the next step is silent for it. */
  lemma CancellationSafety(cfg: Config, s: System, ops: seq<Timed>, next: Timed, id: Id, g: nat)
    requires SystemInv(cfg, s) && FreshRun(cfg, s, ops) && Reached(s, id, g)
    requires FreshIds(Run(cfg, s, ops), next.op)
    ensures var mid := Run(cfg, s, ops);
            var (s', answer) := Step(cfg, mid, next.op, next.now);
            SilentStep(mid, next.op, s', answer, id, g)
  {
    ReachedForever(cfg, s, ops, id, g);
    var mid := Run(cfg, s, ops);
    var (s', answer) := Step(cfg, mid, next.op, next.now);
    StepSystemStep(cfg, mid, next.op, next.now);
    if (next.op.Move? || next.op.End? || next.op.Commit? || next.op.Speak?) && StaleFor(next.op.token, id, g) {
      StaleRefused(cfg, mid, next.op, next.now, id, g);
    }
    PlayedIsCurrent(cfg, mid, next.op, next.now, id, g);
    if id in s'.store.sessions && id in mid.store.sessions {
      SilentHistory(cfg, mid, next.op, next.now, id, g);
    }
  }

  /** Whatever a poll hands out to play is work of a generation not yet left. */
  lemma PlayedIsCurrent(cfg: Config, s: System, op: Op, now: int, id: Id, g: nat)
    requires SystemInv(cfg, s) && Reached(s, id, g)
    ensures var answer := Step(cfg, s, op, now).1;
            answer.Polled? && answer.command.Some? && answer.command.value.kind.Play? ==>
              !StaleFor(answer.command.value.token, id, g)
  {
    if op.Poll? { NextCommandEffect(s.queue, cfg.b, s.store, op.clientId); }
  }

  // ------------------------------------------------------------- tombstones

  /** Enqueueing well-formed audio is refused exactly when the token is not accepted:
      a tombstone never turns away current work. */
  lemma TombstonesNeverOverReject(cfg: Config, s: System, clientId: string, token: Token, audioRef: string,
                                  contentType: string, candidates: seq<Id>, now: int)
    requires SystemInv(cfg, s) && AudioOk(clientId, audioRef, contentType)
    ensures var answer := Step(cfg, s, Speak(clientId, token, audioRef, contentType, candidates), now).1;
            && (answer == Spoken(Ok(None)) <==> !Accepts(s.store, token))
            && ((Accepts(s.store, token)
                 && |QueueOf(s.queue, clientId)| < cfg.b.maxQueued
                 && UniqueId(candidates, s.queue.items.Keys).Some?)
                ==> answer.item.Ok? && answer.item.value.Some?)
  {
    if Accepts(s.store, token) {
      var floor := Floor(s.queue.tombstones, token.sessionId);
      if floor != -1 {
        assert TombstoneLow(s, Tombstone(token.sessionId, floor));
      }
    }
  }

  // ---------------------------------------------------- sessions that closed

  lemma {:induction false} ClosedForever(cfg: Config, s: System, ops: seq<Timed>, id: Id)
    requires SystemInv(cfg, s) && FreshRun(cfg, s, ops)
    requires id in s.store.sessions && !s.store.sessions[id].active
    ensures var s' := Run(cfg, s, ops).store;
            id in s'.sessions ==>
              var after := s'.sessions[id];
              && !after.active && after.history == [] && after.pendingRequest == None
              && after.turns == s.store.sessions[id].turns
              && forall t :: t in after.turns ==> Terminal(t.stage)
    decreases |ops|
  {
    if ops == [] {
    } else {
      StepInv(cfg, s, ops[0].op, ops[0].now);
      StepSystemStep(cfg, s, ops[0].op, ops[0].now);
      var s' := Step(cfg, s, ops[0].op, ops[0].now).0;
      if id in s'.store.sessions {
        ClosedForever(cfg, s', ops[1..], id);
      } else {
        assert SessionKnown(s, id);
        GoneForever(cfg, s', ops[1..], id);
      }
    }
  }

  lemma {:induction false} GoneForever(cfg: Config, s: System, ops: seq<Timed>, id: Id)
    requires SystemInv(cfg, s) && FreshRun(cfg, s, ops) && id in s.sessionIds && id !in s.store.sessions
    ensures id !in Run(cfg, s, ops).store.sessions
    decreases |ops|
  {
    if ops != [] {
      StepInv(cfg, s, ops[0].op, ops[0].now);
      StepSystemStep(cfg, s, ops[0].op, ops[0].now);
      GoneForever(cfg, Step(cfg, s, ops[0].op, ops[0].now).0, ops[1..], id);
    }
  }

  // ------------------------------------------------------------ stages climb

  ghost function StageOf(s: System, id: Id, turnId: Id): Option<Stage> {
    if id in s.store.sessions && turnId in TurnIds(s.store.sessions[id].turns) then
      var t :| t in s.store.sessions[id].turns && t.id == turnId;
      Some(t.stage)
    else None
  }

  lemma StageOfTurn(cfg: Config, s: System, id: Id, t: Turn)
    requires SystemInv(cfg, s) && id in s.store.sessions && t in s.store.sessions[id].turns
    ensures StageOf(s, id, t.id) == Some(t.stage)
  {
    var turns := s.store.sessions[id].turns;
    assert t.id in TurnIds(turns);
    var u :| u in turns && u.id == t.id && StageOf(s, id, t.id) == Some(u.stage);
    var i :| 0 <= i < |turns| && turns[i] == t;
    var j :| 0 <= j < |turns| && turns[j] == u;
    assert i == j;
  }

  lemma StageStep(cfg: Config, s: System, op: Op, now: int, id: Id, turnId: Id)
    requires SystemInv(cfg, s) && FreshIds(s, op)
    ensures var a, b := StageOf(s, id, turnId), StageOf(Step(cfg, s, op, now).0, id, turnId);
            && (a.Some? && b.Some? ==> b == a || Rank(a.value) < Rank(b.value))
            && (a.None? && b.Some? ==> turnId !in s.turnIds)
  {
    StepInv(cfg, s, op, now);
    StepSystemStep(cfg, s, op, now);
    var s' := Step(cfg, s, op, now).0;
    if StageOf(s', id, turnId).Some? {
      var t :| t in s'.store.sessions[id].turns && t.id == turnId;
      StageOfTurn(cfg, s', id, t);
      if id in s.store.sessions {
        var before := s.store.sessions[id];
        assert TurnStep(before, s'.store.sessions[id], t);
        if t in before.turns {
          StageOfTurn(cfg, s, id, t);
        } else if exists u :: u in before.turns && Climbed(before, u, t) {
          var u :| u in before.turns && Climbed(before, u, t);
          StageOfTurn(cfg, s, id, u);
        }
      }
    }
  }

  /** How often the stage of one turn changes along a run. */
  ghost function Changes(cfg: Config, s: System, ops: seq<Timed>, id: Id, turnId: Id): nat
    requires SystemInv(cfg, s) && FreshRun(cfg, s, ops)
    decreases |ops|
  {
    if ops == [] then 0
    else
      StepInv(cfg, s, ops[0].op, ops[0].now);
      var s' := Step(cfg, s, ops[0].op, ops[0].now).0;
      var a, b := StageOf(s, id, turnId), StageOf(s', id, turnId);
      (if a.Some? && b.Some? && a != b then 1 else 0) + Changes(cfg, s', ops[1..], id, turnId)
  }

  /** A turn changes stage at most six times, whatever happens to it. */
  lemma {:induction false} StagesClimb(cfg: Config, s: System, ops: seq<Timed>, id: Id, turnId: Id)
    requires SystemInv(cfg, s) && FreshRun(cfg, s, ops)
    ensures Changes(cfg, s, ops, id, turnId) <=
              var a := StageOf(s, id, turnId);
              if a.Some? then 6 - Rank(a.value) else if turnId in s.turnIds then 0 else 6
    decreases |ops|
  {
    if ops != [] {
      var s' := Step(cfg, s, ops[0].op, ops[0].now).0;
      StepInv(cfg, s, ops[0].op, ops[0].now);
      StepSystemStep(cfg, s, ops[0].op, ops[0].now);
      StageStep(cfg, s, ops[0].op, ops[0].now, id, turnId);
      if StageOf(s, id, turnId).Some? { assert SessionKnown(s, id); }
      StagesClimb(cfg, s', ops[1..], id, turnId);
    }
  }

  // -------------------------------------------------- what a client observes

  lemma {:induction false} PhasePrefix(log: seq<Event>, c: string, n: nat)
    requires PhaseAfter(log, c).Some? && n <= |log|
    ensures PhaseAfter(log[..n], c).Some?
    decreases |log|
  {
    if n < |log| {
      PhasePrefix(log[..|log| - 1], c, n);
      assert log[..|log| - 1][..n] == log[..n];
    } else {
      assert log[..n] == log;
    }
  }

  lemma PhaseNext(log: seq<Event>, c: string, n: nat)
    requires PhaseAfter(log, c).Some? && n < |log|
    ensures PhaseAfter(log[..n], c).Some?
    ensures PhaseAfter(log[..n + 1], c) ==
              if log[n].client == c then NextPhase(PhaseAfter(log[..n], c).value, log[n]) else PhaseAfter(log[..n], c)
    ensures PhaseAfter(log[..n + 1], c).Some?
  {
    PhasePrefix(log, c, n);
    PhasePrefix(log, c, n + 1);
    assert log[..n + 1][..n] == log[..n];
  }

  /** From `Stopping`, the first thing of note the client sees is that STOP. */
  lemma {:induction false} StopComesNext(log: seq<Event>, c: string, id: Id, i: nat, j: nat) returns (k: nat)
    requires PhaseAfter(log, c).Some? && i <= j < |log|
    requires PhaseAfter(log[..i], c) == Some(Stopping(id))
    requires log[j].client == c && log[j].Played?
    ensures i <= k < j && log[k] == StopDelivered(c, id)
    ensures forall m :: i <= m < k ==> log[m].client != c || log[m].Enqueued?
    decreases j - i
  {
    PhaseNext(log, c, i);
    if log[i] == StopDelivered(c, id) {
      k := i;
    } else {
      k := StopComesNext(log, c, id, i + 1, j);
    }
  }

  /** A STOP issued by the server reaches the client before the client's next PLAY,
      and nothing but new entries in its queue comes before it. */
  lemma StopNeverLost(cfg: Config, s: System, c: string, id: Id, i: nat, j: nat) returns (k: nat)
    requires SystemInv(cfg, s) && i < j < |s.log|
    requires s.log[i] == StopIssued(c, id) && s.log[j].client == c && s.log[j].Played?
    ensures i < k < j && s.log[k] == StopDelivered(c, id)
    ensures forall m :: i < m < k ==> s.log[m].client != c || s.log[m].Enqueued?
  {
    assert ClientLogOk(s, c);
    PhaseNext(s.log, c, i);
    k := StopComesNext(s.log, c, id, i + 1, j);
  }

  /** A STOP delivered answers one STOP issued: the client was stopping that item. */
  lemma StopOnlyOnce(cfg: Config, s: System, c: string, id: Id, i: nat, j: nat)
    requires SystemInv(cfg, s) && i < j < |s.log|
    requires s.log[i] == StopDelivered(c, id) && s.log[j].client == c && !s.log[j].Enqueued?
    requires forall m :: i < m < j ==> s.log[m].client != c || s.log[m].Enqueued?
    ensures s.log[j].Played?
  {
    assert ClientLogOk(s, c);
    PhaseNext(s.log, c, i);
    IdleUntil(s.log, c, i + 1, j);
    PhaseNext(s.log, c, j);
  }

  lemma {:induction false} IdleUntil(log: seq<Event>, c: string, i: nat, j: nat)
    requires PhaseAfter(log, c).Some? && i <= j < |log|
    requires forall m :: i <= m < j ==> log[m].client != c || log[m].Enqueued?
    ensures PhaseAfter(log[..i], c) == PhaseAfter(log[..j], c)
    decreases j - i
  {
    if i < j {
      PhaseNext(log, c, i);
      IdleUntil(log, c, i + 1, j);
    }
  }

  /** While a client plays, no command waits for it; at most one command ever waits;
      so the command deque is never trimmed. */
  lemma CommandsNeverTrimmed(cfg: Config, s: System, c: string)
    requires SystemInv(cfg, s)
    ensures |CommandsOf(s.queue, c)| <= 1 <= cfg.b.maxCommands
    ensures c in s.queue.active ==> CommandsOf(s.queue, c) == []
    ensures CommandsOf(s.queue, c) != [] ==>
              PhaseAfter(s.log, c) == Some(Stopping(CommandsOf(s.queue, c)[0].playbackId))
  {
    assert ClientOk(s.queue, cfg.b, c) && ClientLogOk(s, c);
  }

  /** Each client is told to play items in the order they were queued for it, each
      item at most once, and what is still queued comes after all of them. */
  lemma FifoPerClient(cfg: Config, s: System, c: string)
    requires SystemInv(cfg, s)
    ensures Subseq(PlayOrder(s.log, c) + QueueOf(s.queue, c), EnqueueOrder(s.log, c))
    ensures Distinct(PlayOrder(s.log, c) + QueueOf(s.queue, c))
  {
    assert ClientLogOk(s, c);
    SubseqDistinct(PlayOrder(s.log, c) + QueueOf(s.queue, c), EnqueueOrder(s.log, c));
  }

  /** Between two PLAYs to one client the earlier item ended: the client said so, or
      the server stopped it. */
  lemma OnePlaybackAtATime(cfg: Config, s: System, c: string, i: nat, j: nat) returns (k: nat)
    requires SystemInv(cfg, s) && i < j < |s.log|
    requires s.log[i].client == c && s.log[i].Played? && s.log[j].client == c && s.log[j].Played?
    ensures i < k < j && (s.log[k] == Ended(c, s.log[i].id) || s.log[k] == StopIssued(c, s.log[i].id))
  {
    assert ClientLogOk(s, c);
    PhaseNext(s.log, c, i);
    k := PlayingEnds(s.log, c, s.log[i].id, i + 1, j);
  }

  lemma {:induction false} PlayingEnds(log: seq<Event>, c: string, id: Id, i: nat, j: nat) returns (k: nat)
    requires PhaseAfter(log, c).Some? && i <= j < |log|
    requires PhaseAfter(log[..i], c) == Some(Phase.Playing(id))
    requires log[j].client == c && log[j].Played?
    ensures i <= k < j && (log[k] == Ended(c, id) || log[k] == StopIssued(c, id))
    decreases j - i
  {
    PhaseNext(log, c, i);
    if log[i] == Ended(c, id) || log[i] == StopIssued(c, id) {
      k := i;
    } else {
      k := PlayingEnds(log, c, id, i + 1, j);
    }
  }

  /** Every non-terminal item is in exactly one place, the terminal record lists
      exactly the ended items, and both bounds hold. */
  lemma PlaybackPartition(cfg: Config, s: System, id: Id)
    requires SystemInv(cfg, s) && id in s.queue.items
    ensures var q := s.queue;
            var item := q.items[id];
            && item.id == id
            && (Over(item.state) <==> id in q.terminal)
            && (!Over(item.state) ==> (id in QueueOf(q, item.clientId) <==> !IsActive(q, item.clientId, id)))
            && (id in QueueOf(q, item.clientId) ==> item.state == Queued)
            && (forall c :: c != item.clientId ==> id !in QueueOf(q, c) && !IsActive(q, c, id))
            && Distinct(QueueOf(q, item.clientId)) && Distinct(q.terminal)
    ensures |s.queue.items| == |s.queue.terminal| + TotalQueued(s.queue.queued) + |s.queue.active|
    ensures |s.queue.items| <= cfg.b.maxTerminal + TotalQueued(s.queue.queued) + |s.queue.queued|
  {
    var q := s.queue;
    ItemCount(q, cfg.b);
    assert StoredOk(q, id) && PlacedOk(q, id) && EntryOk(q, {}, q.items[id].clientId, id)
           && ClientOk(q, cfg.b, q.items[id].clientId);
    forall c | c != q.items[id].clientId ensures id !in QueueOf(q, c) && !IsActive(q, c, id) {
      assert EntryOk(q, {}, c, id) && ClientOk(q, cfg.b, c);
    }
  }
}
