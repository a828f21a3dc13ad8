/** The session store as a value: one function per lock-protected operation,
    and the invariant every operation keeps. */
module Sessions {
  import opened Collections
  import opened SessionContexts

  type Id = string

  datatype Origin = Text | Voice

  datatype Stage =
    | Capturing | Transcribing | Thinking | Synthesizing
    | PlaybackQueued | Playing | Completed | Cancelled | Failed

  datatype Role = User | Assistant | Tool

  predicate Terminal(s: Stage) {
    s.Completed? || s.Cancelled? || s.Failed?
  }

  /** The stage machine: which stages may follow which. */
  predicate Legal(from: Stage, to: Stage) {
    match from
    case Capturing => to in {Transcribing, Thinking, Cancelled, Failed}
    case Transcribing => to in {Thinking, Cancelled, Failed}
    case Thinking => to in {Synthesizing, Completed, Cancelled, Failed}
    case Synthesizing => to in {PlaybackQueued, Completed, Cancelled, Failed}
    case PlaybackQueued => to in {Playing, Cancelled, Failed}
    case Playing => to in {Completed, Cancelled, Failed}
    case _ => false
  }

  function Rank(s: Stage): (r: nat)
    ensures r <= 6
    ensures r == 6 <==> Terminal(s)
  {
    match s
    case Capturing => 0
    case Transcribing => 1
    case Thinking => 2
    case Synthesizing => 3
    case PlaybackQueued => 4
    case Playing => 5
    case _ => 6
  }

  lemma LegalClimbs(from: Stage, to: Stage)
    requires Legal(from, to)
    ensures Rank(from) < Rank(to) && !Terminal(from)
  {
  }

  datatype Token = Token(sessionId: Id, turnId: Id, generation: nat)

  datatype Turn = Turn(id: Id, generation: nat, origin: Origin, stage: Stage, failure: Option<string>)

  datatype Message = Message(role: Role, text: string, turnId: Id)

  datatype Session = Session(
    clientId: string,
    generation: nat,
    active: bool,
    context: SessionContext,
    turns: seq<Turn>,
    history: seq<Message>,
    pendingRequest: Option<string>,
    updatedAt: int)

  /** A Python dict: a map together with its insertion order. */
  datatype Store = Store(sessions: map<Id, Session>, order: seq<Id>)

  datatype Limits = Limits(maxSessions: nat, maxTurns: nat, maxHistory: nat, maxChars: nat)

  predicate ValidLimits(lim: Limits) {
    lim.maxSessions >= 1 && lim.maxTurns >= 1 && lim.maxHistory >= 1 && lim.maxChars >= 1
  }

  datatype Error =
    | UnknownSession | UnknownTurn | SessionClosed | TurnInProgress
    | InvalidMessage | TerminalStart | IllegalTransition | NotTerminal
    | BlankClient | CapacityReached | IdsExhausted | ContextRefused

  const EMPTY_STORE := Store(map[], [])

  // ----------------------------------------------------------------- helpers

  /** The first of at most eight proposals of the id factory that is usable. */
  function UniqueId(candidates: seq<Id>, existing: set<Id>): (r: Option<Id>)
    ensures r.Some? ==> r.value in candidates && r.value != "" && r.value !in existing
    ensures r.None? ==> forall i :: 0 <= i < |candidates| && i < 8 ==> candidates[i] == "" || candidates[i] in existing
  {
    UniqueIdFrom(candidates, existing, 0)
  }

  function UniqueIdFrom(candidates: seq<Id>, existing: set<Id>, from: nat): (r: Option<Id>)
    requires from <= 8
    ensures r.Some? ==> r.value in candidates && r.value != "" && r.value !in existing
    ensures r.None? ==> forall i ::
              from <= i < |candidates| && i < 8 ==> candidates[i] == "" || candidates[i] in existing
    decreases 8 - from
  {
    if from == 8 || from >= |candidates| then None
    else if candidates[from] != "" && candidates[from] !in existing then Some(candidates[from])
    else UniqueIdFrom(candidates, existing, from + 1)
  }

  function CleanMessage(text: string, maxChars: nat): (r: Option<string>)
    ensures r.Some? ==> r.value != "" && |r.value| <= maxChars
  {
    var clean := Strip(text);
    if clean == "" || |clean| > maxChars then None else Some(clean)
  }

  function TurnIds(turns: seq<Turn>): set<Id> {
    set t | t in turns :: t.id
  }

  /** Position of the first turn with this id, or the length when there is none. */
  function FindTurn(turns: seq<Turn>, id: Id): (i: nat)
    ensures i <= |turns|
    ensures i < |turns| ==> turns[i].id == id
    ensures forall k :: 0 <= k < i ==> turns[k].id != id
  {
    if turns == [] then 0
    else if turns[0].id == id then 0
    else 1 + FindTurn(turns[1..], id)
  }

  predicate SessionAccepts(s: Session, t: Token) {
    && s.active
    && s.generation == t.generation
    && var i := FindTurn(s.turns, t.turnId);
       i < |s.turns| && s.turns[i].generation == t.generation && !Terminal(s.turns[i].stage)
  }

  predicate Accepts(st: Store, t: Token) {
    t.sessionId in st.sessions && SessionAccepts(st.sessions[t.sessionId], t)
  }

  function StageAt(st: Store, t: Token): Stage
    requires Accepts(st, t)
  {
    var turns := st.sessions[t.sessionId].turns;
    turns[FindTurn(turns, t.turnId)].stage
  }

  predicate HasOpenTurn(turns: seq<Turn>) {
    exists i :: 0 <= i < |turns| && !Terminal(turns[i].stage)
  }

  function Put(st: Store, id: Id, s: Session): Store
    requires id in st.sessions
  {
    st.(sessions := st.sessions[id := s])
  }

  function CancelTurn(t: Turn, only: Option<Id>): Turn {
    if !Terminal(t.stage) && (only.None? || t.id == only.value) then t.(stage := Cancelled) else t
  }

  function CancelTurns(turns: seq<Turn>, only: Option<Id>): (r: seq<Turn>)
    ensures |r| == |turns|
    ensures forall i :: 0 <= i < |r| ==> r[i] == CancelTurn(turns[i], only)
  {
    if turns == [] then [] else [CancelTurn(turns[0], only)] + CancelTurns(turns[1..], only)
  }

  // -------------------------------------------------------------- operations

  /** The first closed session in insertion order among those updated longest ago. */
  function OldestClosed(st: Store, order: seq<Id>): (r: Option<Id>)
    requires forall id :: id in order ==> id in st.sessions
    ensures r.Some? ==> r.value in order && !st.sessions[r.value].active
    ensures r.Some? ==> forall id :: id in order && !st.sessions[id].active ==>
              st.sessions[r.value].updatedAt <= st.sessions[id].updatedAt
    ensures r.None? ==> forall id :: id in order ==> st.sessions[id].active
    decreases |order|
  {
    if order == [] then None
    else
      var last := order[|order| - 1];
      var best := OldestClosed(st, order[..|order| - 1]);
      assert forall id :: id in order ==> id in order[..|order| - 1] || id == last;
      if st.sessions[last].active then best
      else if best.None? || st.sessions[last].updatedAt < st.sessions[best.value].updatedAt then Some(last)
      else best
  }

  function Forget(st: Store, id: Id): Store {
    Store(map k | k in st.sessions && k != id :: st.sessions[k], Without(st.order, id))
  }

  function AddSession(st: Store, id: Id, clientId: string, context: SessionContext, now: int): Store {
    Store(st.sessions[id := Session(clientId, 0, true, context, [], [], None, now)], st.order + [id])
  }

  /** At capacity, room is made by dropping a closed session, if there is one. */
  function MakeRoom(st: Store, lim: Limits): Option<Store>
    requires forall id :: id in st.order ==> id in st.sessions
  {
    if |st.sessions| < lim.maxSessions then Some(st)
    else
      var victim := OldestClosed(st, st.order);
      if victim.None? then None else Some(Forget(st, victim.value))
  }

  function Register(st: Store, clientId: string, context: SessionContext, candidates: seq<Id>,
                    now: int): (Store, Outcome<Id, Error>) {
    var id := UniqueId(candidates, st.sessions.Keys);
    var normal := Normalize(context);
    if id.None? then (st, Raised(IdsExhausted))
    else if normal.None? then (st, Raised(ContextRefused))
    else (AddSession(st, id.value, clientId, normal.value, now), Ok(id.value))
  }

  /** Room is made before the context is looked at: a refused context may cost a closed
      session its place. */
  function CreateSession(st: Store, lim: Limits, clientId: string, context: Option<SessionContext>, candidates: seq<Id>,
                         now: int):
      (Store, Outcome<Id, Error>)
    requires forall id :: id in st.order ==> id in st.sessions
  {
    var client := Strip(clientId);
    var room := MakeRoom(st, lim);
    if client == "" then (st, Raised(BlankClient))
    else if room.None? then (st, Raised(CapacityReached))
    else Register(room.value, client, if context.Some? then context.value else NO_CONTEXT, candidates, now)
  }

  function InitialStage(origin: Origin, text: Option<string>, initial: Option<Stage>): Stage {
    if initial.Some? then initial.value
    else if origin.Voice? && text.None? then Capturing
    else Thinking
  }

  function OpenTurn(s: Session, lim: Limits, turn: Turn, userText: Option<string>, now: int): Session
    requires ValidLimits(lim)
  {
    s.(turns := PushBounded(s.turns, turn, lim.maxTurns),
       history := if userText.Some?
         then PushBounded(s.history, Message(User, userText.value, turn.id), lim.maxHistory)
         else s.history,
       updatedAt := now)
  }

  function BeginTurn(st: Store, lim: Limits, sessionId: Id, origin: Origin, text: Option<string>,
                     initial: Option<Stage>, candidates: seq<Id>, now: int): (Store, Outcome<Token, Error>)
    requires ValidLimits(lim)
  {
    var clean := if text.Some? then CleanMessage(text.value, lim.maxChars) else None;
    if text.Some? && clean.None? then (st, Raised(InvalidMessage))
    else
      var stage := InitialStage(origin, clean, initial);
      if Terminal(stage) then (st, Raised(TerminalStart))
      else StartTurn(st, lim, sessionId, origin, clean, stage, candidates, now)
  }

  function StartTurn(st: Store, lim: Limits, sessionId: Id, origin: Origin, clean: Option<string>, stage: Stage,
                     candidates: seq<Id>, now: int): (Store, Outcome<Token, Error>)
    requires ValidLimits(lim)
  {
    if sessionId !in st.sessions then (st, Raised(UnknownSession))
    else
      var s := st.sessions[sessionId];
      if !s.active then (st, Raised(SessionClosed))
      else if HasOpenTurn(s.turns) then (st, Raised(TurnInProgress))
      else
        var id := UniqueId(candidates, TurnIds(s.turns));
        if id.None? then (st, Raised(IdsExhausted))
        else
          var turn := Turn(id.value, s.generation, origin, stage, None);
          (Put(st, sessionId, OpenTurn(s, lim, turn, clean, now)), Ok(Token(sessionId, id.value, s.generation)))
  }

  /** A late call that repeats the outcome already recorded for its turn. */
  predicate Repeats(st: Store, token: Token, stage: Stage) {
    && Terminal(stage) && token.sessionId in st.sessions
    && var turns := st.sessions[token.sessionId].turns;
       var i := FindTurn(turns, token.turnId);
       i < |turns| && turns[i].generation == token.generation && turns[i].stage == stage
  }

  function Transition(st: Store, token: Token, stage: Stage, failure: Option<string>,
                      now: int): (Store, Outcome<bool, Error>) {
    if !Accepts(st, token) then
      (st, Ok(Repeats(st, token, stage)))
    else
      var s := st.sessions[token.sessionId];
      var i := FindTurn(s.turns, token.turnId);
      if s.turns[i].stage == stage then (st, Ok(true))
      else if !Legal(s.turns[i].stage, stage) then (st, Raised(IllegalTransition))
      else
        var s' := s.(turns := s.turns[i := s.turns[i].(stage := stage, failure := failure)], updatedAt := now);
        (Put(st, token.sessionId, s'), Ok(true))
  }

  /** `set_transcript` and `commit_assistant_text`: the same guard, a different role. */
  function CommitText(st: Store, lim: Limits, token: Token, role: Role, text: string,
                      now: int): (Store, Outcome<bool, Error>)
    requires ValidLimits(lim)
  {
    if !Accepts(st, token) then (st, Ok(false))
    else
      var clean := CleanMessage(text, lim.maxChars);
      if clean.None? then (st, Raised(InvalidMessage))
      else
        var s := st.sessions[token.sessionId];
        var s' := s.(history := PushBounded(s.history, Message(role, clean.value, token.turnId), lim.maxHistory),
                     updatedAt := now);
        (Put(st, token.sessionId, s'), Ok(true))
  }

  /** Every outstanding token is invalid, and the open turn is cancelled. */
  function CancelIn(s: Session, only: Option<Id>, now: int): Session {
    s.(generation := s.generation + 1, turns := CancelTurns(s.turns, only), updatedAt := now)
  }

  function Cancel(st: Store, sessionId: Id, only: Option<Id>, now: int): (Store, Outcome<nat, Error>) {
    if sessionId !in st.sessions then (st, Raised(UnknownSession))
    else
      var s := st.sessions[sessionId];
      var i := if only.Some? then FindTurn(s.turns, only.value) else 0;
      if only.Some? && i == |s.turns| then (st, Raised(UnknownTurn))
      else if only.Some? && Terminal(s.turns[i].stage) then (st, Ok(s.generation))
      else
        (Put(st, sessionId, CancelIn(s, only, now)), Ok(s.generation + 1))
  }

  function Terminalize(st: Store, token: Token, stage: Stage, failure: Option<string>,
                       now: int): (Store, Outcome<bool, Error>) {
    if !Terminal(stage) then (st, Raised(NotTerminal))
    else if stage.Cancelled? then
      if !Accepts(st, token) then (st, Ok(false))
      else (Cancel(st, token.sessionId, Some(token.turnId), now).0, Ok(true))
    else Transition(st, token, stage, failure, now)
  }

  function CloseSession(st: Store, sessionId: Id, now: int): (Store, Outcome<(), Error>) {
    if sessionId !in st.sessions then (st, Raised(UnknownSession))
    else
      var s := Cancel(st, sessionId, None, now).0.sessions[sessionId];
      (Put(st, sessionId, s.(active := false, history := [], pendingRequest := None, updatedAt := now)), Ok(()))
  }

  /** A refused change leaves everything as it was, the history too. */
  function UpdateContext(st: Store, sessionId: Id, changes: Changes, clearHistory: bool,
                         now: int): (Store, Outcome<(), Error>) {
    if sessionId !in st.sessions then (st, Raised(UnknownSession))
    else
      var s := st.sessions[sessionId];
      var normal := Normalize(Apply(changes, s.context));
      if !s.active then (st, Raised(SessionClosed))
      else if normal.None? then (st, Raised(ContextRefused))
      else (Put(st, sessionId,
                s.(context := normal.value, history := if clearHistory then [] else s.history, updatedAt := now)),
                  Ok(()))
  }

  function SetPending(st: Store, lim: Limits, sessionId: Id, text: Option<string>,
                      now: int): (Store, Outcome<(), Error>) {
    var clean := if text.Some? then CleanMessage(text.value, lim.maxChars) else None;
    if text.Some? && clean.None? then (st, Raised(InvalidMessage))
    else if sessionId !in st.sessions then (st, Raised(UnknownSession))
    else
      var s := st.sessions[sessionId];
      if !s.active then (st, Raised(SessionClosed))
      else (Put(st, sessionId, s.(pendingRequest := clean, updatedAt := now)), Ok(()))
  }

  // --------------------------------------------------------------- invariant

  ghost predicate DistinctTurns(turns: seq<Turn>) {
    forall i, j :: 0 <= i < j < |turns| ==> turns[i].id != turns[j].id
  }

  /** At most one turn is open; it is the newest, it carries the current
      generation, and only an active session has one. */
  ghost predicate SessionOk(lim: Limits, s: Session) {
    && |s.turns| <= lim.maxTurns
    && |s.history| <= lim.maxHistory
    && DistinctTurns(s.turns)
    && (forall i :: 0 <= i < |s.turns| ==> s.turns[i].generation <= s.generation)
    && (forall i :: 0 <= i < |s.turns| && !Terminal(s.turns[i].stage) ==>
          i == |s.turns| - 1 && s.turns[i].generation == s.generation && s.active)
    && (!s.active ==> s.history == [] && s.pendingRequest == None)
  }

  ghost predicate StoreOk(lim: Limits, st: Store) {
    && ValidLimits(lim)
    && |st.sessions| <= lim.maxSessions
    && Distinct(st.order)
    && (forall id :: id in st.order <==> id in st.sessions)
    && (forall id :: id in st.sessions ==> SessionOk(lim, st.sessions[id]))
  }

  /** The token the session is working for, if any. */
  ghost function OpenToken(sessionId: Id, s: Session): Option<Token> {
    if s.active && s.turns != [] && !Terminal(s.turns[|s.turns| - 1].stage)
    then Some(Token(sessionId, s.turns[|s.turns| - 1].id, s.generation))
    else None
  }

  /** `accepts` holds for the open turn's token and for no other token. */
  lemma AcceptsExactlyOpenToken(lim: Limits, st: Store, t: Token)
    requires StoreOk(lim, st)
    ensures Accepts(st, t) <==>
              t.sessionId in st.sessions && OpenToken(t.sessionId, st.sessions[t.sessionId]) == Some(t)
  {
    if t.sessionId in st.sessions {
      var s := st.sessions[t.sessionId];
      var i := FindTurn(s.turns, t.turnId);
      if i < |s.turns| - 1 {
        assert s.turns[i].id != s.turns[|s.turns| - 1].id;
      }
    }
  }

  lemma PutKeepsOk(lim: Limits, st: Store, id: Id, s: Session)
    requires StoreOk(lim, st) && id in st.sessions && SessionOk(lim, s)
    ensures StoreOk(lim, Put(st, id, s))
  {
    assert Put(st, id, s).sessions.Keys == st.sessions.Keys;
  }

  lemma ForgetKeepsOk(lim: Limits, st: Store, id: Id)
    requires StoreOk(lim, st) && id in st.sessions
    ensures StoreOk(lim, Forget(st, id)) && |Forget(st, id).sessions| == |st.sessions| - 1
  {
    WithoutDistinct(st.order, id);
    assert Forget(st, id).sessions.Keys == st.sessions.Keys - {id};
  }

  lemma AddKeepsOk(lim: Limits, st: Store, id: Id, clientId: string, context: SessionContext, now: int)
    requires StoreOk(lim, st) && id !in st.sessions && |st.sessions| < lim.maxSessions
    ensures StoreOk(lim, AddSession(st, id, clientId, context, now))
  {
    DistinctAppend(st.order, id);
    assert AddSession(st, id, clientId, context, now).sessions.Keys == st.sessions.Keys + {id};
  }

  lemma RegisterKeepsOk(lim: Limits, st: Store, clientId: string, context: SessionContext, candidates: seq<Id>,
                        now: int)
    requires StoreOk(lim, st) && |st.sessions| < lim.maxSessions
    ensures var (st', out) := Register(st, clientId, context, candidates, now);
            && StoreOk(lim, st')
            && (out.Ok? ==> out.value in candidates && out.value in st'.sessions && st'.sessions[out.value].turns == [])
            && (forall id ::
                  id in st'.sessions && out != Ok(id) ==> id in st.sessions && st'.sessions[id] == st.sessions[id])
  {
    var id, normal := UniqueId(candidates, st.sessions.Keys), Normalize(context);
    if id.Some? && normal.Some? { AddKeepsOk(lim, st, id.value, clientId, normal.value, now); }
  }

  /** The store a session is created in: one closed session may have made room. */
  lemma CreateKeepsOk(lim: Limits, st: Store, clientId: string, context: Option<SessionContext>, candidates: seq<Id>,
                      now: int)
    requires StoreOk(lim, st)
    ensures var (st', out) := CreateSession(st, lim, clientId, context, candidates, now);
            && StoreOk(lim, st')
            && (out.Ok? ==> out.value in candidates && out.value in st'.sessions && st'.sessions[out.value].turns == [])
            && (forall id ::
                  id in st'.sessions && out != Ok(id) ==> id in st.sessions && st'.sessions[id] == st.sessions[id])
  {
    var room := MakeRoom(st, lim);
    if Strip(clientId) != "" && room.Some? {
      if room.value != st { ForgetKeepsOk(lim, st, OldestClosed(st, st.order).value); }
      RegisterKeepsOk(lim, room.value, Strip(clientId), if context.Some? then context.value else NO_CONTEXT,
                      candidates, now);
    }
  }

  lemma OpenTurnOk(lim: Limits, s: Session, turn: Turn, userText: Option<string>, now: int)
    requires ValidLimits(lim) && SessionOk(lim, s) && s.active && !HasOpenTurn(s.turns)
    requires turn.id !in TurnIds(s.turns) && turn.generation == s.generation
    ensures SessionOk(lim, OpenTurn(s, lim, turn, userText, now))
  {
    var s' := OpenTurn(s, lim, turn, userText, now);
    assert forall i :: 0 <= i < |s.turns| ==> s.turns[i].id in TurnIds(s.turns);
    var d := if |s.turns| < lim.maxTurns then 0 else |s.turns| - lim.maxTurns + 1;
    assert forall i :: 0 <= i < |s'.turns| - 1 ==> s'.turns[i] == s.turns[i + d];
  }

  lemma StartKeepsOk(lim: Limits, st: Store, sessionId: Id, origin: Origin, clean: Option<string>,
                     stage: Stage, candidates: seq<Id>, now: int)
    requires StoreOk(lim, st) && !Terminal(stage)
    ensures var (st', out) := StartTurn(st, lim, sessionId, origin, clean, stage, candidates, now);
            && StoreOk(lim, st')
            && (out.Ok? ==> out.value.turnId in candidates && Accepts(st', out.value))
  {
    var (st', out) := StartTurn(st, lim, sessionId, origin, clean, stage, candidates, now);
    if out.Ok? {
      var s := st.sessions[sessionId];
      var turn := Turn(out.value.turnId, s.generation, origin, stage, None);
      OpenTurnOk(lim, s, turn, clean, now);
      PutKeepsOk(lim, st, sessionId, OpenTurn(s, lim, turn, clean, now));
      AcceptsExactlyOpenToken(lim, st', out.value);
    }
  }

  lemma BeginKeepsOk(lim: Limits, st: Store, sessionId: Id, origin: Origin, text: Option<string>,
                     initial: Option<Stage>, candidates: seq<Id>, now: int)
    requires StoreOk(lim, st)
    ensures var (st', out) := BeginTurn(st, lim, sessionId, origin, text, initial, candidates, now);
            && StoreOk(lim, st')
            && (out.Ok? ==> out.value.turnId in candidates && Accepts(st', out.value))
  {
    var clean := if text.Some? then CleanMessage(text.value, lim.maxChars) else None;
    if !Terminal(InitialStage(origin, clean, initial)) {
      StartKeepsOk(lim, st, sessionId, origin, clean, InitialStage(origin, clean, initial), candidates, now);
    }
  }

  lemma TransitionKeepsOk(lim: Limits, st: Store, token: Token, stage: Stage, failure: Option<string>, now: int)
    requires StoreOk(lim, st)
    ensures StoreOk(lim, Transition(st, token, stage, failure, now).0)
  {
    var st' := Transition(st, token, stage, failure, now).0;
    if st' != st {
      PutKeepsOk(lim, st, token.sessionId, st'.sessions[token.sessionId]);
    }
  }

  lemma CommitKeepsOk(lim: Limits, st: Store, token: Token, role: Role, text: string, now: int)
    requires StoreOk(lim, st)
    ensures StoreOk(lim, CommitText(st, lim, token, role, text, now).0)
  {
    var st' := CommitText(st, lim, token, role, text, now).0;
    if st' != st {
      PutKeepsOk(lim, st, token.sessionId, st'.sessions[token.sessionId]);
    }
  }

  /** A turn-scoped cancel can only hit the one open turn. */
  lemma CancelInOk(lim: Limits, s: Session, only: Option<Id>, now: int)
    requires ValidLimits(lim) && SessionOk(lim, s)
    requires only.Some? ==>
               var k := FindTurn(s.turns, only.value); k < |s.turns| && !Terminal(s.turns[k].stage)
    ensures SessionOk(lim, CancelIn(s, only, now)) && OpenCancelled(s.turns, CancelIn(s, only, now).turns)
  {
    var s' := CancelIn(s, only, now);
    forall i | 0 <= i < |s'.turns|
      ensures s'.turns[i] == if Terminal(s.turns[i].stage) then s.turns[i] else s.turns[i].(stage := Cancelled)
    {
      if only.Some? {
        var k := FindTurn(s.turns, only.value);
        assert !Terminal(s.turns[k].stage);
      }
    }
  }

  /** Every open turn is `Cancelled` and otherwise as it was, every other turn the same. */
  ghost predicate OpenCancelled(turns: seq<Turn>, turns': seq<Turn>) {
    && |turns'| == |turns|
    && forall i :: 0 <= i < |turns| ==>
         turns'[i] == if turns[i].stage in {Completed, Cancelled, Failed} then turns[i]
                      else turns[i].(stage := Cancelled)
  }

  /** Cancelling leaves no open turn, and cancels the one there was. */
  lemma CancelKeepsOk(lim: Limits, st: Store, sessionId: Id, only: Option<Id>, now: int)
    requires StoreOk(lim, st)
    ensures var (st', out) := Cancel(st, sessionId, only, now);
            && StoreOk(lim, st')
            && (st' != st ==>
                  && sessionId in st.sessions
                  && st' == Put(st, sessionId, st'.sessions[sessionId])
                  && st'.sessions[sessionId].generation == st.sessions[sessionId].generation + 1
                  && !HasOpenTurn(st'.sessions[sessionId].turns)
                  && OpenCancelled(st.sessions[sessionId].turns, st'.sessions[sessionId].turns))
  {
    CancelIs(st, sessionId, only, now);
    if Cancel(st, sessionId, only, now).0 != st {
      var s' := CancelIn(st.sessions[sessionId], only, now);
      CancelInOk(lim, st.sessions[sessionId], only, now);
      PutKeepsOk(lim, st, sessionId, s');
      assert !HasOpenTurn(s'.turns);
    }
  }

  lemma CancelIs(st: Store, sessionId: Id, only: Option<Id>, now: int)
    ensures var st' := Cancel(st, sessionId, only, now).0;
            st' != st ==>
              && sessionId in st.sessions && st' == Put(st, sessionId, CancelIn(st.sessions[sessionId], only, now))
              && (only.Some? ==>
                    var turns := st.sessions[sessionId].turns;
                    var k := FindTurn(turns, only.value);
                    k < |turns| && !Terminal(turns[k].stage))
  {
  }

  lemma CloseKeepsOk(lim: Limits, st: Store, sessionId: Id, now: int)
    requires StoreOk(lim, st)
    ensures StoreOk(lim, CloseSession(st, sessionId, now).0)
  {
    if sessionId in st.sessions {
      CancelKeepsOk(lim, st, sessionId, None, now);
      var mid := Cancel(st, sessionId, None, now).0;
      assert mid.sessions[sessionId].generation == st.sessions[sessionId].generation + 1;
      PutKeepsOk(lim, st, sessionId, CloseSession(st, sessionId, now).0.sessions[sessionId]);
    }
  }

  // ------------------------------------------------ results in outline

  lemma BeginOutline(st: Store, lim: Limits, sessionId: Id, origin: Origin, text: Option<string>,
                     initial: Option<Stage>, candidates: seq<Id>, now: int)
    requires ValidLimits(lim)
    ensures var (st', out) := BeginTurn(st, lim, sessionId, origin, text, initial, candidates, now);
            if out.Ok? then
              && sessionId in st.sessions && st' == Put(st, sessionId, st'.sessions[sessionId])
              && out.value.turnId in candidates
              && out.value == Token(sessionId, out.value.turnId, st.sessions[sessionId].generation)
              && TurnIds(st'.sessions[sessionId].turns) <= TurnIds(st.sessions[sessionId].turns) + {out.value.turnId}
            else st' == st
  {
    var (st', out) := BeginTurn(st, lim, sessionId, origin, text, initial, candidates, now);
    if out.Ok? {
      var before, after := st.sessions[sessionId].turns, st'.sessions[sessionId].turns;
      assert forall t :: t in after ==> t in before || t.id == out.value.turnId;
    }
  }
}
