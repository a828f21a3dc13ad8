/** The session store as the program runs it: records mutated in place.  Every
    method is proved to compute what the function of the same name in `Sessions`
    says, so everything proved about those functions holds of the class. */
module SessionStores {
  import opened Collections
  import opened SessionContexts
  import opened Sessions

  class SessionRecord {
    const clientId: string
    var generation: nat
    var active: bool
    var context: SessionContext
    var turns: seq<Turn>
    var history: seq<Message>
    var pendingRequest: Option<string>
    var updatedAt: int

    constructor (clientId: string, context: SessionContext, now: int)
      ensures View() == Session(clientId, 0, true, context, [], [], None, now)
    {
      this.clientId, generation, active, this.context := clientId, 0, true, context;
      turns, history, pendingRequest, updatedAt := [], [], None, now;
    }

    ghost function View(): Session
      reads this
    {
      Session(clientId, generation, active, context, turns, history, pendingRequest, updatedAt)
    }

    /** `deque.append` on the two bounded deques. */
    method AppendMessage(m: Message, bound: nat)
      requires bound >= 1
      modifies this`history
      ensures history == PushBounded(old(history), m, bound)
    {
      history := if |history| < bound then history + [m] else history[|history| - bound + 1..] + [m];
    }

    method AppendTurn(t: Turn, bound: nat)
      requires bound >= 1
      modifies this`turns
      ensures turns == PushBounded(old(turns), t, bound)
    {
      turns := if |turns| < bound then turns + [t] else turns[|turns| - bound + 1..] + [t];
    }

    method FindTurn(id: Id) returns (i: nat)
      ensures i == Sessions.FindTurn(turns, id)
    {
      i := 0;
      while i < |turns| && turns[i].id != id
        invariant i <= |turns|
        invariant forall k :: 0 <= k < i ==> turns[k].id != id
      {
        i := i + 1;
      }
    }

    method AnyOpenTurn() returns (found: bool)
      ensures found == HasOpenTurn(turns)
    {
      for i := 0 to |turns|
        invariant forall k :: 0 <= k < i ==> Terminal(turns[k].stage)
      {
        if !Terminal(turns[i].stage) { return true; }
      }
      return false;
    }

    method Accepts(token: Token) returns (ok: bool)
      ensures ok == SessionAccepts(View(), token)
    {
      if !active || generation != token.generation { return false; }
      var i := FindTurn(token.turnId);
      ok := i < |turns| && turns[i].generation == token.generation && !Terminal(turns[i].stage);
    }

    /** The new turn, and with it the user's words, enter the session together. */
    method Open(turn: Turn, userText: Option<string>, lim: Limits, now: int)
      requires ValidLimits(lim)
      modifies this
      ensures View() == OpenTurn(old(View()), lim, turn, userText, now)
    {
      AppendTurn(turn, lim.maxTurns);
      updatedAt := now;
      if userText.Some? { AppendMessage(Message(User, userText.value, turn.id), lim.maxHistory); }
    }

    method SetStage(i: nat, stage: Stage, failure: Option<string>, now: int)
      requires i < |turns|
      modifies this
      ensures View() == old(View()).(turns := old(turns)[i := old(turns)[i].(stage := stage, failure := failure)],
                                     updatedAt := now)
    {
      turns := turns[i := turns[i].(stage := stage, failure := failure)];
      updatedAt := now;
    }

    /** Invalidate every outstanding token and cancel the open turn. */
    method Cancel(only: Option<Id>, now: int)
      modifies this
      ensures View() == CancelIn(old(View()), only, now)
    {
      generation := generation + 1;
      CancelOpenTurns(only);
      updatedAt := now;
    }

    method CancelOpenTurns(only: Option<Id>)
      modifies this`turns
      ensures turns == CancelTurns(old(turns), only)
      ensures |turns| == |old(turns)|
      ensures forall i :: 0 <= i < |turns| ==>
                turns[i] == if old(turns)[i].stage in {Completed, Cancelled, Failed}
                               || (only.Some? && old(turns)[i].id != only.value)
                            then old(turns)[i] else old(turns)[i].(stage := Cancelled)
    {
      ghost var was := turns;
      for i := 0 to |turns|
        invariant |turns| == |was|
        invariant forall k :: 0 <= k < i ==> turns[k] == CancelTurn(was[k], only)
        invariant forall k :: i <= k < |was| ==> turns[k] == was[k]
      {
        var t := turns[i];
        if !Terminal(t.stage) && (only.None? || t.id == only.value) {
          turns := turns[i := t.(stage := Cancelled)];
        }
      }
    }
  }

  class SessionStore {
    const lim: Limits
    var sessions: map<Id, SessionRecord>
    var order: seq<Id>

    ghost function Records(): set<SessionRecord>
      reads this
    {
      sessions.Values
    }

    /** The store's value: what the functions of `Sessions` work on. */
    ghost function Value(): Store
      reads this, Records()
    {
      Store(map id | id in sessions :: sessions[id].View(), order)
    }

    ghost predicate Separate()
      reads this
    {
      forall a, b :: a in sessions && b in sessions && a != b ==> sessions[a] != sessions[b]
    }

    ghost predicate Valid()
      reads this, Records()
    {
      && Separate()
      && ValidLimits(lim)
      && (forall id :: id in order <==> id in sessions)
    }

    constructor (lim: Limits)
      requires ValidLimits(lim)
      ensures Valid() && this.lim == lim && Value() == EMPTY_STORE && Records() == {}
    {
      this.lim := lim;
      sessions, order := map[], [];
    }

    /** One record was replaced by an updated one. */
    twostate lemma RecordUpdated(id: Id)
      requires old(Separate()) && id in old(sessions)
      requires sessions == old(sessions) && order == old(order)
      requires forall k :: k in sessions && k != id ==> sessions[k].View() == old(sessions[k].View())
      ensures Value() == Put(old(Value()), id, sessions[id].View())
    {
    }

    method Accepts(token: Token) returns (ok: bool)
      requires Valid()
      ensures ok == Sessions.Accepts(Value(), token)
    {
      if token.sessionId !in sessions { return false; }
      ok := sessions[token.sessionId].Accepts(token);
    }

    method NewUniqueId(candidates: seq<Id>, existing: set<Id>) returns (r: Option<Id>)
      ensures r == UniqueId(candidates, existing)
    {
      var i := 0;
      while i < 8 && i < |candidates|
        invariant i <= 8 && (i <= |candidates|)
        invariant UniqueId(candidates, existing) == UniqueIdFrom(candidates, existing, i)
      {
        if candidates[i] != "" && candidates[i] !in existing { return Some(candidates[i]); }
        i := i + 1;
      }
      return None;
    }

    method CleanMessage(text: string) returns (r: Option<string>)
      ensures r == Sessions.CleanMessage(text, lim.maxChars)
    {
      var clean := Strip(text);
      if clean == "" || |clean| > lim.maxChars { return None; }
      return Some(clean);
    }

    method FindOldestClosed() returns (oldest: Option<Id>)
      requires Valid()
      ensures forall id :: id in order ==> id in Value().sessions
      ensures oldest == OldestClosed(Value(), order)
      ensures oldest.Some? ==> oldest.value in sessions
    {
      oldest := None;
      for i := 0 to |order|
        invariant oldest == OldestClosed(Value(), order[..i])
      {
        assert order[..i + 1][..i] == order[..i];
        var id := order[i];
        if !sessions[id].active && (oldest.None? || sessions[id].updatedAt < sessions[oldest.value].updatedAt) {
          oldest := Some(id);
        }
      }
      assert order[..|order|] == order;
    }

    method Remove(id: Id)
      requires Valid()
      modifies this
      ensures Valid() && Records() <= old(Records())
      ensures Value() == Forget(old(Value()), id)
    {
      sessions := map k | k in sessions && k != id :: sessions[k];
      order := Without(order, id);
      Removed(id);
    }

    /** One record was taken out and the others left alone. */
    twostate lemma Removed(id: Id)
      requires sessions == map k | k in old(sessions) && k != id :: old(sessions)[k]
      requires order == Without(old(order), id)
      requires forall r :: r in Records() ==> unchanged(r)
      ensures Records() <= old(Records()) && Value() == Forget(old(Value()), id)
    {
      assert forall k :: k in sessions ==> sessions[k] in Records();
    }

    /** At capacity, drop the closed session updated longest ago, the first of equals. */
    method MakeRoom() returns (ok: bool)
      requires Valid()
      modifies this
      ensures Valid() && Records() <= old(Records())
      ensures forall id :: id in old(order) ==> id in old(Value()).sessions
      ensures var room := Sessions.MakeRoom(old(Value()), lim);
              ok == room.Some? && Value() == if ok then room.value else old(Value())
    {
      assert Value().sessions.Keys == sessions.Keys;
      if |sessions| < lim.maxSessions { return true; }
      var oldest := FindOldestClosed();
      if oldest.None? { return false; }
      Remove(oldest.value);
      return true;
    }

    method AddRecord(id: Id, clientId: string, context: SessionContext, now: int)
      requires Valid() && id !in sessions
      modifies this
      ensures Valid() && fresh(Records() - old(Records()))
      ensures Value() == AddSession(old(Value()), id, clientId, context, now)
    {
      var record := new SessionRecord(clientId, context, now);
      sessions, order := sessions[id := record], order + [id];
      RecordAdded(id);
    }

    /** One new record was put in and the others left alone. */
    twostate lemma RecordAdded(id: Id)
      requires id !in old(sessions) && id in sessions && sessions.Keys == old(sessions).Keys + {id}
               && order == old(order) + [id]
      requires forall k ::
                 k in old(sessions) ==> sessions[k] == old(sessions[k]) && sessions[k].View() == old(sessions[k].View())
      ensures Value() == Store(old(Value()).sessions[id := sessions[id].View()], old(Value()).order + [id])
    {
    }

    method CreateSession(clientId: string, context: Option<SessionContext>, candidates: seq<Id>, now: int)
      returns (out: Outcome<Id, Error>)
      requires Valid()
      modifies this
      ensures Valid() && fresh(Records() - old(Records()))
      ensures forall id :: id in old(order) ==> id in old(Value()).sessions
      ensures (Value(), out) == Sessions.CreateSession(old(Value()), lim, clientId, context, candidates, now)
    {
      var client := Strip(clientId);
      if client == "" { return Raised(BlankClient); }
      var ok := MakeRoom();
      if !ok { return Raised(CapacityReached); }
      out := Register(client, if context.Some? then context.value else NO_CONTEXT, candidates, now);
    }

    method Register(client: string, context: SessionContext, candidates: seq<Id>, now: int)
      returns (out: Outcome<Id, Error>)
      requires Valid()
      modifies this
      ensures Valid() && fresh(Records() - old(Records()))
      ensures (Value(), out) == Sessions.Register(old(Value()), client, context, candidates, now)
    {
      assert Value().sessions.Keys == sessions.Keys;
      var id := NewUniqueId(candidates, sessions.Keys);
      if id.None? { return Raised(IdsExhausted); }
      var normal := NormalizeContext(context);
      if normal.None? { return Raised(ContextRefused); }
      AddRecord(id.value, client, normal.value, now);
      return Ok(id.value);
    }

    method BeginTurn(sessionId: Id, origin: Origin, text: Option<string>, initial: Option<Stage>,
                     candidates: seq<Id>, now: int) returns (out: Outcome<Token, Error>)
      requires Valid()
      modifies Records()
      ensures Valid()
      ensures (Value(), out) == Sessions.BeginTurn(old(Value()), lim, sessionId, origin, text, initial, candidates, now)
    {
      var clean: Option<string> := None;
      if text.Some? {
        clean := CleanMessage(text.value);
        if clean.None? { return Raised(InvalidMessage); }
      }
      var stage := InitialStage(origin, clean, initial);
      if Terminal(stage) { return Raised(TerminalStart); }
      out := StartTurn(sessionId, origin, clean, stage, candidates, now);
    }

    method StartTurn(sessionId: Id, origin: Origin, clean: Option<string>, stage: Stage, candidates: seq<Id>, now: int)
      returns (out: Outcome<Token, Error>)
      requires Valid()
      modifies Records()
      ensures Valid()
      ensures (Value(), out) == Sessions.StartTurn(old(Value()), lim, sessionId, origin, clean, stage, candidates, now)
    {
      if sessionId !in sessions { return Raised(UnknownSession); }
      var s := sessions[sessionId];
      assert Value().sessions[sessionId] == s.View();
      if !s.active { return Raised(SessionClosed); }
      var busy := s.AnyOpenTurn();
      if busy { return Raised(TurnInProgress); }
      out := StartIdle(sessionId, origin, clean, stage, candidates, now);
    }

    /** The session is active and has no open turn. */
    method StartIdle(sessionId: Id, origin: Origin, clean: Option<string>, stage: Stage, candidates: seq<Id>, now: int)
      returns (out: Outcome<Token, Error>)
      requires Valid() && sessionId in sessions
      requires sessions[sessionId].active && !HasOpenTurn(sessions[sessionId].turns)
      modifies Records()
      ensures Valid()
      ensures (Value(), out) == Sessions.StartTurn(old(Value()), lim, sessionId, origin, clean, stage, candidates, now)
    {
      var s := sessions[sessionId];
      var id := NewUniqueId(candidates, TurnIds(s.turns));
      if id.None? { return Raised(IdsExhausted); }
      var token := Token(sessionId, id.value, s.generation);
      OpenIn(sessionId, Turn(id.value, s.generation, origin, stage, None), clean, now);
      return Ok(token);
    }

    method OpenIn(sessionId: Id, turn: Turn, clean: Option<string>, now: int)
      requires Valid() && sessionId in sessions
      modifies Records()
      ensures Valid() && sessions == old(sessions)
      ensures Value() == Put(old(Value()), sessionId, OpenTurn(old(Value()).sessions[sessionId], lim, turn, clean, now))
    {
      sessions[sessionId].Open(turn, clean, lim, now);
      RecordUpdated(sessionId);
    }

    /** Does a late call repeat the outcome that is already recorded? */
    method Recorded(token: Token, stage: Stage) returns (repeated: bool)
      requires Valid()
      ensures repeated == Repeats(Value(), token, stage)
    {
      if token.sessionId !in sessions { return false; }
      var recorded := sessions[token.sessionId];
      var i := recorded.FindTurn(token.turnId);
      repeated := i < |recorded.turns| && recorded.turns[i].generation == token.generation
                  && recorded.turns[i].stage == stage && Terminal(stage);
    }

    method Transition(token: Token, stage: Stage, failure: Option<string>, now: int) returns (out: Outcome<bool, Error>)
      requires Valid()
      modifies Records()
      ensures Valid()
      ensures (Value(), out) == Sessions.Transition(old(Value()), token, stage, failure, now)
    {
      var accepted := Accepts(token);
      if !accepted {
        var repeated := Recorded(token, stage);
        return Ok(repeated);
      }
      out := MoveOn(token, stage, failure, now);
    }

    /** The token is accepted: its turn moves on, if it may. */
    method MoveOn(token: Token, stage: Stage, failure: Option<string>, now: int) returns (out: Outcome<bool, Error>)
      requires Valid() && Sessions.Accepts(Value(), token)
      modifies Records()
      ensures Valid()
      ensures (Value(), out) == Sessions.Transition(old(Value()), token, stage, failure, now)
    {
      var s := sessions[token.sessionId];
      var i := s.FindTurn(token.turnId);
      if s.turns[i].stage == stage { return Ok(true); }
      if !Legal(s.turns[i].stage, stage) { return Raised(IllegalTransition); }
      SetStageIn(token.sessionId, i, stage, failure, now);
      return Ok(true);
    }

    method SetStageIn(sessionId: Id, i: nat, stage: Stage, failure: Option<string>, now: int)
      requires Valid() && sessionId in sessions && i < |sessions[sessionId].turns|
      modifies Records()
      ensures Valid() && sessions == old(sessions)
      ensures var s := old(Value()).sessions[sessionId];
              Value() == Put(old(Value()), sessionId,
                             s.(turns := s.turns[i := s.turns[i].(stage := stage, failure := failure)],
                                updatedAt := now))
    {
      sessions[sessionId].SetStage(i, stage, failure, now);
      RecordUpdated(sessionId);
    }

    /** `set_transcript` with role `User`, `commit_assistant_text` with role `Assistant`. */
    method CommitText(token: Token, role: Role, text: string, now: int) returns (out: Outcome<bool, Error>)
      requires Valid()
      modifies Records()
      ensures Valid()
      ensures (Value(), out) == Sessions.CommitText(old(Value()), lim, token, role, text, now)
    {
      var accepted := Accepts(token);
      if !accepted { return Ok(false); }
      var clean := CleanMessage(text);
      if clean.None? { return Raised(InvalidMessage); }
      var s := sessions[token.sessionId];
      s.AppendMessage(Message(role, clean.value, token.turnId), lim.maxHistory);
      s.updatedAt := now;
      RecordUpdated(token.sessionId);
      return Ok(true);
    }

    method Cancel(sessionId: Id, only: Option<Id>, now: int) returns (out: Outcome<nat, Error>)
      requires Valid()
      modifies Records()
      ensures Valid()
      ensures (Value(), out) == Sessions.Cancel(old(Value()), sessionId, only, now)
    {
      if sessionId !in sessions { return Raised(UnknownSession); }
      var s := sessions[sessionId];
      if only.Some? {
        var i := s.FindTurn(only.value);
        if i == |s.turns| { return Raised(UnknownTurn); }
        if Terminal(s.turns[i].stage) { return Ok(s.generation); }
      }
      CancelRecord(sessionId, only, now);
      return Ok(s.generation);
    }

    method CancelRecord(sessionId: Id, only: Option<Id>, now: int)
      requires Valid() && sessionId in sessions
      modifies Records()
      ensures Valid() && Value() == Put(old(Value()), sessionId, CancelIn(old(Value()).sessions[sessionId], only, now))
      ensures sessions[sessionId].generation == old(sessions[sessionId].generation) + 1
    {
      sessions[sessionId].Cancel(only, now);
      RecordUpdated(sessionId);
    }

    method Terminalize(token: Token, stage: Stage, failure: Option<string>, now: int)
      returns (out: Outcome<bool, Error>)
      requires Valid()
      modifies Records()
      ensures Valid()
      ensures (Value(), out) == Sessions.Terminalize(old(Value()), token, stage, failure, now)
    {
      if !Terminal(stage) { return Raised(NotTerminal); }
      if stage.Cancelled? {
        var accepted := Accepts(token);
        if !accepted { return Ok(false); }
        var _ := Cancel(token.sessionId, Some(token.turnId), now);
        return Ok(true);
      }
      out := Transition(token, stage, failure, now);
    }

    /** Nothing of the conversation outlives its session. */
    method ShutDown(sessionId: Id, now: int)
      requires Valid() && sessionId in sessions
      modifies Records()
      ensures Valid() && sessions == old(sessions) && order == old(order)
      ensures var s := old(Value()).sessions[sessionId];
              Value() == Put(old(Value()), sessionId,
                             s.(active := false, history := [], pendingRequest := None, updatedAt := now))
    {
      var s := sessions[sessionId];
      s.active, s.history, s.pendingRequest, s.updatedAt := false, [], None, now;
      RecordUpdated(sessionId);
    }

    method CloseSession(sessionId: Id, now: int) returns (out: Outcome<(), Error>)
      requires Valid()
      modifies Records()
      ensures Valid()
      ensures (Value(), out) == Sessions.CloseSession(old(Value()), sessionId, now)
    {
      if sessionId !in sessions { return Raised(UnknownSession); }
      ghost var was := Value();
      var _ := Cancel(sessionId, None, now);
      ghost var mid := Value();
      ShutDown(sessionId, now);
      assert mid == Put(was, sessionId, mid.sessions[sessionId]);
      assert Value() == Put(was, sessionId, Value().sessions[sessionId]);
      return Ok(());
    }

    method UpdateContext(sessionId: Id, changes: Changes, clearHistory: bool, now: int)
      returns (out: Outcome<(), Error>)
      requires Valid()
      modifies Records()
      ensures Valid()
      ensures (Value(), out) == Sessions.UpdateContext(old(Value()), sessionId, changes, clearHistory, now)
    {
      if sessionId !in sessions { return Raised(UnknownSession); }
      var s := sessions[sessionId];
      if !s.active { return Raised(SessionClosed); }
      var normal := NormalizeContext(Apply(changes, s.context));
      if normal.None? { return Raised(ContextRefused); }
      s.context := normal.value;
      if clearHistory { s.history := []; }
      s.updatedAt := now;
      RecordUpdated(sessionId);
      return Ok(());
    }

    method SetPending(sessionId: Id, text: Option<string>, now: int) returns (out: Outcome<(), Error>)
      requires Valid()
      modifies Records()
      ensures Valid()
      ensures (Value(), out) == Sessions.SetPending(old(Value()), lim, sessionId, text, now)
    {
      var clean: Option<string> := None;
      if text.Some? {
        clean := CleanMessage(text.value);
        if clean.None? { return Raised(InvalidMessage); }
      }
      if sessionId !in sessions { return Raised(UnknownSession); }
      var s := sessions[sessionId];
      if !s.active { return Raised(SessionClosed); }
      s.pendingRequest, s.updatedAt := clean, now;
      RecordUpdated(sessionId);
      return Ok(());
    }
  }
}
