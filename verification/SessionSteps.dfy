/** What one store operation may do to a session: generations only rise, a closed
    session stays closed, stages only climb, and only the open turn is written to. */
module SessionSteps {
  import opened Collections
  import opened SessionContexts
  import opened Sessions

  ghost predicate Grows(s: Session, s': Session) {
    && s.generation <= s'.generation
    && (s'.active ==> s.active)
    && (s.active && !s'.active ==> s.generation < s'.generation)
    && (!s.active ==> s'.turns == s.turns)
  }

  /** `t` is an unchanged turn of `s`, or the open turn of `s` moved up, or a new turn. */
  ghost predicate TurnStep(s: Session, s': Session, t: Turn) {
    || t in s.turns
    || (exists u :: u in s.turns && Climbed(s, u, t))
    || (t.id !in TurnIds(s.turns) && t.generation == s.generation == s'.generation && !Terminal(t.stage) && s.active)
  }

  ghost predicate Climbed(s: Session, u: Turn, t: Turn) {
    && u.id == t.id && u.generation == t.generation == s.generation && u.origin == t.origin
    && !Terminal(u.stage) && Rank(u.stage) < Rank(t.stage)
  }

  /** The history is kept, wiped, or extended by one message of the open turn. */
  ghost predicate HistoryStep(s: Session, s': Session) {
    || s'.history == s.history
    || s'.history == []
    || (exists m: Message, bound: nat :: bound >= 1 && s'.history == PushBounded(s.history, m, bound)
          && OpenToken("", s') == Some(Token("", m.turnId, s'.generation)))
  }

  ghost predicate SessionStep(s: Session, s': Session) {
    && Grows(s, s')
    && HistoryStep(s, s')
    && (forall t {:trigger TurnStep(s, s', t)} :: t in s'.turns ==> TurnStep(s, s', t))
  }

  ghost predicate StoreStep(st: Store, st': Store) {
    forall id {:trigger id in st'.sessions} :: id in st'.sessions ==>
      id in st.sessions && SessionStep(st.sessions[id], st'.sessions[id])
  }

  lemma SameStep(s: Session)
    ensures SessionStep(s, s)
  {
    forall t | t in s.turns ensures TurnStep(s, s, t) {}
  }

  lemma PutStep(st: Store, id: Id, s': Session)
    requires id in st.sessions && SessionStep(st.sessions[id], s')
    ensures StoreStep(st, Put(st, id, s'))
  {
    forall k | k in Put(st, id, s').sessions
      ensures k in st.sessions && SessionStep(st.sessions[k], Put(st, id, s').sessions[k])
    {
      if k != id { SameStep(st.sessions[k]); }
    }
  }

  lemma IdleStep(st: Store)
    ensures StoreStep(st, st)
  {
    forall k | k in st.sessions ensures SessionStep(st.sessions[k], st.sessions[k]) { SameStep(st.sessions[k]); }
  }

  lemma OpenTurnStep(lim: Limits, s: Session, turn: Turn, userText: Option<string>, now: int)
    requires ValidLimits(lim) && s.active && !HasOpenTurn(s.turns)
    requires turn.id !in TurnIds(s.turns) && turn.generation == s.generation && !Terminal(turn.stage)
    ensures SessionStep(s, OpenTurn(s, lim, turn, userText, now))
  {
    var s' := OpenTurn(s, lim, turn, userText, now);
    forall t | t in s'.turns ensures TurnStep(s, s', t) {}
    if userText.Some? {
      var m := Message(User, userText.value, turn.id);
      assert s'.history == PushBounded(s.history, m, lim.maxHistory);
    }
  }

  lemma BeginStep(st: Store, lim: Limits, sessionId: Id, origin: Origin, text: Option<string>,
                  initial: Option<Stage>, candidates: seq<Id>, now: int)
    requires StoreOk(lim, st)
    ensures StoreStep(st, BeginTurn(st, lim, sessionId, origin, text, initial, candidates, now).0)
  {
    var (st', out) := BeginTurn(st, lim, sessionId, origin, text, initial, candidates, now);
    if out.Ok? {
      var s := st.sessions[sessionId];
      var clean := if text.Some? then CleanMessage(text.value, lim.maxChars) else None;
      var turn := Turn(out.value.turnId, s.generation, origin, InitialStage(origin, clean, initial), None);
      OpenTurnStep(lim, s, turn, clean, now);
      PutStep(st, sessionId, OpenTurn(s, lim, turn, clean, now));
    } else {
      IdleStep(st);
    }
  }

  lemma TransitionStep(lim: Limits, st: Store, token: Token, stage: Stage, failure: Option<string>, now: int)
    requires StoreOk(lim, st)
    ensures StoreStep(st, Transition(st, token, stage, failure, now).0)
  {
    var st' := Transition(st, token, stage, failure, now).0;
    if st' == st {
      IdleStep(st);
    } else {
      var s, s' := st.sessions[token.sessionId], st'.sessions[token.sessionId];
      var i := FindTurn(s.turns, token.turnId);
      LegalClimbs(s.turns[i].stage, stage);
      forall t | t in s'.turns ensures TurnStep(s, s', t) {
        if t !in s.turns { assert Climbed(s, s.turns[i], t); }
      }
      PutStep(st, token.sessionId, s');
    }
  }

  lemma CommitStep(lim: Limits, st: Store, token: Token, role: Role, text: string, now: int)
    requires StoreOk(lim, st)
    ensures StoreStep(st, CommitText(st, lim, token, role, text, now).0)
  {
    var (st', out) := CommitText(st, lim, token, role, text, now);
    if out != Ok(true) {
      IdleStep(st);
    } else {
      var s, s' := st.sessions[token.sessionId], st'.sessions[token.sessionId];
      AcceptsExactlyOpenToken(lim, st, token);
      var m := Message(role, CleanMessage(text, lim.maxChars).value, token.turnId);
      assert s'.history == PushBounded(s.history, m, lim.maxHistory);
      forall t | t in s'.turns ensures TurnStep(s, s', t) {}
      PutStep(st, token.sessionId, s');
    }
  }

  lemma CancelStep(lim: Limits, st: Store, sessionId: Id, only: Option<Id>, now: int)
    requires StoreOk(lim, st)
    ensures StoreStep(st, Cancel(st, sessionId, only, now).0)
  {
    var st' := Cancel(st, sessionId, only, now).0;
    if st' == st {
      IdleStep(st);
    } else {
      var s, s' := st.sessions[sessionId], st'.sessions[sessionId];
      assert !s.active ==> s'.turns == s.turns;
      forall t | t in s'.turns ensures TurnStep(s, s', t) {
        var i :| 0 <= i < |s'.turns| && s'.turns[i] == t;
        if t != s.turns[i] { assert Climbed(s, s.turns[i], t); }
        assert s.turns[i] in s.turns;
      }
      PutStep(st, sessionId, s');
    }
  }

  lemma CloseStep(lim: Limits, st: Store, sessionId: Id, now: int)
    requires StoreOk(lim, st)
    ensures StoreStep(st, CloseSession(st, sessionId, now).0)
  {
    if sessionId in st.sessions {
      CancelStep(lim, st, sessionId, None, now);
      var s := st.sessions[sessionId];
      var mid := Cancel(st, sessionId, None, now).0.sessions[sessionId];
      var s' := CloseSession(st, sessionId, now).0.sessions[sessionId];
      assert SessionStep(s, mid);
      forall t | t in s'.turns ensures TurnStep(s, s', t) { assert TurnStep(s, mid, t); }
      PutStep(st, sessionId, s');
    } else {
      IdleStep(st);
    }
  }

  lemma TerminalizeStep(lim: Limits, st: Store, token: Token, stage: Stage, failure: Option<string>, now: int)
    requires StoreOk(lim, st)
    ensures StoreStep(st, Terminalize(st, token, stage, failure, now).0)
    ensures StoreOk(lim, Terminalize(st, token, stage, failure, now).0)
  {
    IdleStep(st);
    CancelStep(lim, st, token.sessionId, Some(token.turnId), now);
    CancelKeepsOk(lim, st, token.sessionId, Some(token.turnId), now);
    TransitionStep(lim, st, token, stage, failure, now);
    TransitionKeepsOk(lim, st, token, stage, failure, now);
  }

  // ------------------------------------------------------- which turns exist

  ghost predicate KeepsTurnIds(st: Store, st': Store) {
    forall id {:trigger id in st'.sessions} :: id in st'.sessions ==>
      id in st.sessions && TurnIds(st'.sessions[id].turns) == TurnIds(st.sessions[id].turns)
  }

  lemma SameIdsElementwise(a: seq<Turn>, b: seq<Turn>)
    requires |a| == |b| && forall i :: 0 <= i < |a| ==> a[i].id == b[i].id
    ensures TurnIds(a) == TurnIds(b)
  {
    forall x ensures x in TurnIds(a) <==> x in TurnIds(b) {
      if x in TurnIds(a) { var i :| 0 <= i < |a| && a[i].id == x; assert b[i] in b; }
      if x in TurnIds(b) { var i :| 0 <= i < |b| && b[i].id == x; assert a[i] in a; }
    }
  }

  lemma TransitionIds(st: Store, token: Token, stage: Stage, failure: Option<string>, now: int)
    ensures KeepsTurnIds(st, Transition(st, token, stage, failure, now).0)
  {
    var st' := Transition(st, token, stage, failure, now).0;
    if st' != st {
      SameIdsElementwise(st'.sessions[token.sessionId].turns, st.sessions[token.sessionId].turns);
    }
  }

  lemma CancelIds(st: Store, sessionId: Id, only: Option<Id>, now: int)
    ensures KeepsTurnIds(st, Cancel(st, sessionId, only, now).0)
  {
    var st' := Cancel(st, sessionId, only, now).0;
    if st' != st {
      SameIdsElementwise(st'.sessions[sessionId].turns, st.sessions[sessionId].turns);
    }
  }

  lemma TerminalizeIds(st: Store, token: Token, stage: Stage, failure: Option<string>, now: int)
    ensures KeepsTurnIds(st, Terminalize(st, token, stage, failure, now).0)
  {
    TransitionIds(st, token, stage, failure, now);
    CancelIds(st, token.sessionId, Some(token.turnId), now);
  }

  lemma CloseIds(st: Store, sessionId: Id, now: int)
    ensures KeepsTurnIds(st, CloseSession(st, sessionId, now).0)
  {
    CancelIds(st, sessionId, None, now);
  }

  /** An operation that leaves the turns alone. */
  lemma TurnsKept(lim: Limits, st: Store, id: Id, s': Session)
    requires StoreOk(lim, st) && id in st.sessions && SessionOk(lim, s')
    requires var s := st.sessions[id];
             s'.turns == s.turns && s'.generation == s.generation && s'.active == s.active
               && s'.history in {s.history, []}
    ensures StoreOk(lim, Put(st, id, s')) && StoreStep(st, Put(st, id, s')) && KeepsTurnIds(st, Put(st, id, s'))
  {
    PutKeepsOk(lim, st, id, s');
    SameTurnsStep(st.sessions[id], s');
    PutStep(st, id, s');
    PutSameIds(st, id, s');
  }

  lemma PutSameIds(st: Store, id: Id, s': Session)
    requires id in st.sessions && s'.turns == st.sessions[id].turns
    ensures KeepsTurnIds(st, Put(st, id, s'))
  {
  }

  lemma SameTurnsStep(s: Session, s': Session)
    requires s'.turns == s.turns && s'.generation == s.generation && s'.active == s.active
             && s'.history in {s.history, []}
    ensures SessionStep(s, s')
  {
    forall t | t in s'.turns ensures TurnStep(s, s', t) {}
  }

  lemma UpdateContextStep(lim: Limits, st: Store, sessionId: Id, changes: Changes, clearHistory: bool, now: int)
    requires StoreOk(lim, st)
    ensures var st' := UpdateContext(st, sessionId, changes, clearHistory, now).0;
            StoreOk(lim, st') && StoreStep(st, st') && KeepsTurnIds(st, st')
  {
    var (st', out) := UpdateContext(st, sessionId, changes, clearHistory, now);
    IdleStep(st);
    if out.Ok? { TurnsKept(lim, st, sessionId, st'.sessions[sessionId]); }
  }

  lemma SetPendingStep(lim: Limits, st: Store, sessionId: Id, request: Option<string>, now: int)
    requires StoreOk(lim, st)
    ensures var st' := SetPending(st, lim, sessionId, request, now).0;
            StoreOk(lim, st') && StoreStep(st, st') && KeepsTurnIds(st, st')
  {
    var (st', out) := SetPending(st, lim, sessionId, request, now);
    IdleStep(st);
    if out.Ok? { TurnsKept(lim, st, sessionId, st'.sessions[sessionId]); }
  }

  lemma CommitIds(lim: Limits, st: Store, token: Token, role: Role, text: string, now: int)
    requires ValidLimits(lim)
    ensures KeepsTurnIds(st, CommitText(st, lim, token, role, text, now).0)
  {
  }
}
