/** How a turn ends, along every run: only as somebody asked. */
module TurnOutcomes {
  import opened Collections
  import opened SessionContexts
  import opened Sessions
  import opened SessionEffects
  import opened TurnProtocol
  import opened TurnProtocolProofs
  import opened TurnTheorems

  /** The step asks for this turn to end so: by a move or an end with that very stage, or
      by cancelling or closing its session. */
  ghost predicate Asks(op: Op, id: Id, turnId: Id, outcome: Stage) {
    || ((op.Move? || op.End?) && op.token.sessionId == id && op.token.turnId == turnId && op.stage == outcome)
    || (outcome == Cancelled && (op == CancelTurn(id) || op == Close(id)))
  }

  ghost predicate EndedIn(turns: seq<Turn>, turnId: Id, outcome: Stage) {
    exists i :: 0 <= i < |turns| && turns[i].id == turnId && turns[i].stage == outcome
  }

  /** The turn is on record with this outcome. */
  ghost predicate Ended(st: Store, id: Id, turnId: Id, outcome: Stage) {
    id in st.sessions && EndedIn(st.sessions[id].turns, turnId, outcome)
  }

  lemma LastWritten(turns: seq<Turn>, t: Turn, turnId: Id, outcome: Stage)
    requires turns != [] && EndedIn(turns[|turns| - 1 := t], turnId, outcome) && !EndedIn(turns, turnId, outcome)
    ensures t.id == turnId && t.stage == outcome
  {
    var turns' := turns[|turns| - 1 := t];
    var i :| 0 <= i < |turns'| && turns'[i].id == turnId && turns'[i].stage == outcome;
  }

  /** A move writes the newest turn of its session, which is the one the token is for. */
  lemma MoveWrites(lim: Limits, st: Store, token: Token, stage: Stage, failure: Option<string>, now: int)
    requires StoreOk(lim, st)
    ensures var st' := Transition(st, token, stage, failure, now).0;
            st' != st ==>
              && OnlySession(st, token.sessionId, st')
              && var turns := st.sessions[token.sessionId].turns;
              && turns != []
              && st'.sessions[token.sessionId].turns
                 == turns[|turns| - 1 := turns[|turns| - 1].(id := token.turnId, stage := stage, failure := failure)]
  {
    CurrentIff(lim, st, token);
  }

  lemma MoveAsks(lim: Limits, st: Store, token: Token, stage: Stage, failure: Option<string>, now: int, id: Id,
                 turnId: Id, outcome: Stage)
    requires StoreOk(lim, st)
    requires Ended(Transition(st, token, stage, failure, now).0, id, turnId, outcome) && !Ended(st, id, turnId, outcome)
    ensures token.sessionId == id && token.turnId == turnId && stage == outcome
  {
    MoveWrites(lim, st, token, stage, failure, now);
    WriteAsks(st, token, stage, failure, Transition(st, token, stage, failure, now).0, id, turnId, outcome);
  }

  lemma WriteAsks(st: Store, token: Token, stage: Stage, failure: Option<string>, st': Store, id: Id, turnId: Id,
                  outcome: Stage)
    requires OnlySession(st, token.sessionId, st') && st.sessions[token.sessionId].turns != []
    requires var turns := st.sessions[token.sessionId].turns;
             st'.sessions[token.sessionId].turns
             == turns[|turns| - 1 := turns[|turns| - 1].(id := token.turnId, stage := stage, failure := failure)]
    requires Ended(st', id, turnId, outcome) && !Ended(st, id, turnId, outcome)
    ensures token.sessionId == id && token.turnId == turnId && stage == outcome
  {
    var turns := st.sessions[id].turns;
    LastWritten(turns, turns[|turns| - 1].(id := token.turnId, stage := stage, failure := failure), turnId, outcome);
  }

  lemma CancelAsks(st: Store, id: Id, only: Option<Id>, st': Store, turnId: Id, outcome: Stage)
    requires id in st.sessions && id in st'.sessions && TurnsCancelled(st.sessions[id], only, st'.sessions[id])
    requires Ended(st', id, turnId, outcome) && !Ended(st, id, turnId, outcome)
    ensures outcome == Cancelled && (only.None? || only == Some(turnId))
  {
    var turns, turns' := st.sessions[id].turns, st'.sessions[id].turns;
    var i :| 0 <= i < |turns'| && turns'[i].id == turnId && turns'[i].stage == outcome;
    assert turns[i].id == turnId;
  }

  lemma EndAsks(lim: Limits, st: Store, token: Token, stage: Stage, failure: Option<string>, now: int, id: Id,
                turnId: Id, outcome: Stage)
    requires StoreOk(lim, st) && Over(outcome)
    requires Ended(Terminalize(st, token, stage, failure, now).0, id, turnId, outcome)
    requires !Ended(st, id, turnId, outcome)
    ensures token.sessionId == id && token.turnId == turnId && stage == outcome
  {
    EndExactly(lim, st, token, stage, failure, now);
    if stage == Cancelled {
      var st' := Terminalize(st, token, stage, failure, now).0;
      CancelAsks(st, id, Some(token.turnId), st', turnId, outcome);
    } else {
      MoveAsks(lim, st, token, stage, failure, now, id, turnId, outcome);
    }
  }

  lemma CancelOpAsks(st: Store, sessionId: Id, now: int, id: Id, turnId: Id, outcome: Stage)
    requires !Ended(st, id, turnId, outcome)
    requires Ended(Cancel(st, sessionId, None, now).0, id, turnId, outcome)
             || Ended(CloseSession(st, sessionId, now).0, id, turnId, outcome)
    ensures sessionId == id && outcome == Cancelled
  {
    CancelExactly(st, sessionId, None, now);
    CloseExactly(st, sessionId, now);
    var st' := if Ended(Cancel(st, sessionId, None, now).0, id, turnId, outcome) then Cancel(st, sessionId, None, now).0
               else CloseSession(st, sessionId, now).0;
    CancelAsks(st, id, None, st', turnId, outcome);
  }

  /** Operations that end no turn. */
  lemma BeginEndsNothing(lim: Limits, st: Store, sessionId: Id, origin: Origin, text: Option<string>,
                         initial: Option<Stage>, candidates: seq<Id>, now: int, id: Id, turnId: Id, outcome: Stage)
    requires StoreOk(lim, st) && Over(outcome)
    requires Ended(BeginTurn(st, lim, sessionId, origin, text, initial, candidates, now).0, id, turnId, outcome)
    ensures Ended(st, id, turnId, outcome)
  {
    var stage := InitialStage(origin, text, initial);
    BeginFails(lim, st, sessionId, origin, text, initial, candidates, now, stage);
    var (st', out) := BeginTurn(st, lim, sessionId, origin, text, initial, candidates, now);
    if out.Ok? && id == sessionId {
      BeginExactly(lim, st, sessionId, origin, text, initial, candidates, now, stage);
      var turn := Turn(out.value.turnId, st.sessions[id].generation, origin, stage, None);
      OpenPushed(st.sessions[id].turns, turn, lim.maxTurns, st'.sessions[id].turns, turnId, outcome);
    }
  }

  lemma OpenPushed(turns: seq<Turn>, t: Turn, bound: nat, turns': seq<Turn>, turnId: Id, outcome: Stage)
    requires Pushed(turns, t, bound, turns') && t.stage != outcome && EndedIn(turns', turnId, outcome)
    ensures EndedIn(turns, turnId, outcome)
  {
    var i :| 0 <= i < |turns'| && turns'[i].id == turnId && turns'[i].stage == outcome;
    assert turns'[i] == if |turns| < bound then turns[i] else turns[i + 1];
  }

  lemma SameTurnsEnd(st: Store, st': Store, id: Id, turnId: Id, outcome: Stage)
    requires SameTurns(st, st', id)
    ensures Ended(st', id, turnId, outcome) ==> Ended(st, id, turnId, outcome)
  {
  }

  lemma CreateEndsNothing(cfg: Config, s: System, op: Op, now: int, id: Id, turnId: Id, outcome: Stage)
    requires SystemInv(cfg, s) && op.Create?
    ensures Ended(Step(cfg, s, op, now).0.store, id, turnId, outcome) ==> Ended(s.store, id, turnId, outcome)
  {
    CreateKeepsOk(cfg.lim, s.store, op.clientId, op.context, op.candidates, now);
    CreateStepIs(cfg, s, op, now);
    var st' := Step(cfg, s, op, now).0.store;
    var out := CreateSession(s.store, cfg.lim, op.clientId, op.context, op.candidates, now).1;
    if out == Ok(id) {
      assert id in st'.sessions && st'.sessions[id].turns == [];
    } else {
      SameTurnsEnd(s.store, st', id, turnId, outcome);
    }
  }

  ghost predicate SameTurns(st: Store, st': Store, id: Id) {
    id in st'.sessions ==> id in st.sessions && st'.sessions[id].turns == st.sessions[id].turns
  }

  lemma CommitKeepsTurns(lim: Limits, st: Store, token: Token, role: Role, text: string, now: int, id: Id)
    requires StoreOk(lim, st)
    ensures SameTurns(st, CommitText(st, lim, token, role, text, now).0, id)
  {
  }

  lemma ContextKeepsTurns(st: Store, sessionId: Id, changes: Changes, clear: bool, now: int, id: Id)
    ensures SameTurns(st, UpdateContext(st, sessionId, changes, clear, now).0, id)
  {
  }

  lemma PendingKeepsTurns(lim: Limits, st: Store, sessionId: Id, request: Option<string>, now: int, id: Id)
    ensures SameTurns(st, SetPending(st, lim, sessionId, request, now).0, id)
  {
  }

  lemma FieldOpsKeepTurns(cfg: Config, s: System, op: Op, now: int, id: Id)
    requires SystemInv(cfg, s) && (op.Commit? || op.Context? || op.Pending?)
    ensures SameTurns(s.store, Step(cfg, s, op, now).0.store, id)
  {
    match op {
      case Commit(token, role, text) =>
        CommitStepIs(cfg, s, token, role, text, now);
        CommitKeepsTurns(cfg.lim, s.store, token, role, text, now, id);
      case Context(sessionId, changes, clear) =>
        ContextStepIs(cfg, s, sessionId, changes, clear, now);
        ContextKeepsTurns(s.store, sessionId, changes, clear, now, id);
      case Pending(sessionId, request) =>
        PendingStepIs(cfg, s, sessionId, request, now);
        PendingKeepsTurns(cfg.lim, s.store, sessionId, request, now, id);
    }
  }

  lemma CommitStepIs(cfg: Config, s: System, token: Token, role: Role, text: string, now: int)
    requires SystemInv(cfg, s)
    ensures Step(cfg, s, Commit(token, role, text), now).0.store
            == CommitText(s.store, cfg.lim, token, role, text, now).0
  {
  }

  lemma StepAsks(cfg: Config, s: System, op: Op, now: int, id: Id, turnId: Id, outcome: Stage)
    requires SystemInv(cfg, s) && Over(outcome)
    requires Ended(Step(cfg, s, op, now).0.store, id, turnId, outcome) && !Ended(s.store, id, turnId, outcome)
    ensures Asks(op, id, turnId, outcome)
  {
    var st := s.store;
    match op {
      case Create(_, _, _) => CreateEndsNothing(cfg, s, op, now, id, turnId, outcome);
      case Begin(sessionId, origin, text, initial, candidates) =>
        BeginEndsNothing(cfg.lim, st, sessionId, origin, text, initial, candidates, now, id, turnId, outcome);
      case Move(token, stage, failure) =>
        MoveAsks(cfg.lim, st, token, stage, failure, now, id, turnId, outcome);
      case End(token, stage, failure) =>
        EndAsks(cfg.lim, st, token, stage, failure, now, id, turnId, outcome);
      case CancelTurn(sessionId) => CancelOpAsks(st, sessionId, now, id, turnId, outcome);
      case Close(sessionId) => CancelOpAsks(st, sessionId, now, id, turnId, outcome);
      case _ => OthersEndNothing(cfg, s, op, now, id, turnId, outcome);
    }
  }

  lemma OthersEndNothing(cfg: Config, s: System, op: Op, now: int, id: Id, turnId: Id, outcome: Stage)
    requires SystemInv(cfg, s)
    requires op.Commit? || op.Context? || op.Pending? || op.StopPlayback? || op.Speak? || op.Poll? || op.Acked?
    ensures Ended(Step(cfg, s, op, now).0.store, id, turnId, outcome) ==> Ended(s.store, id, turnId, outcome)
  {
    if op.Commit? || op.Context? || op.Pending? {
      FieldOpsKeepTurns(cfg, s, op, now, id);
      SameTurnsEnd(s.store, Step(cfg, s, op, now).0.store, id, turnId, outcome);
    } else {
      QueueOpsKeepStore(cfg, s, op, now);
    }
  }

  /** A turn that is completed, failed or cancelled at the end of a run, and was not so at
      the start, was asked to end so by some step of the run: it fails only when a move or
      an end asked for failure, and is cancelled only by a cancellation. */
  lemma {:induction false} EndsOnlyAsAsked(cfg: Config, s: System, ops: seq<Timed>, id: Id, turnId: Id, outcome: Stage)
    returns (k: nat)
    requires SystemInv(cfg, s) && FreshRun(cfg, s, ops) && Over(outcome)
    requires Ended(Run(cfg, s, ops).store, id, turnId, outcome) && !Ended(s.store, id, turnId, outcome)
    ensures k < |ops| && Asks(ops[k].op, id, turnId, outcome)
    decreases |ops|
  {
    var op, now := ops[0].op, ops[0].now;
    StepInv(cfg, s, op, now);
    var s' := Step(cfg, s, op, now).0;
    if Ended(s'.store, id, turnId, outcome) {
      StepAsks(cfg, s, op, now, id, turnId, outcome);
      k := 0;
    } else {
      RunOneMore(cfg, s, ops);
      var rest := EndsOnlyAsAsked(cfg, s', ops[1..], id, turnId, outcome);
      k := rest + 1;
      assert ops[1..][rest] == ops[k];
    }
  }

  lemma RunOneMore(cfg: Config, s: System, ops: seq<Timed>)
    requires SystemInv(cfg, s) && FreshRun(cfg, s, ops) && ops != []
    ensures SystemInv(cfg, Step(cfg, s, ops[0].op, ops[0].now).0)
    ensures FreshRun(cfg, Step(cfg, s, ops[0].op, ops[0].now).0, ops[1..])
    ensures Run(cfg, s, ops) == Run(cfg, Step(cfg, s, ops[0].op, ops[0].now).0, ops[1..])
  {
    StepInv(cfg, s, ops[0].op, ops[0].now);
  }
}
