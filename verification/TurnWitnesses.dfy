/** Runs from the empty system in which what the theorems exclude by name does happen. */
module TurnWitnesses {
  import opened Collections
  import opened SessionContexts
  import opened Sessions
  import opened Playback
  import opened TurnProtocol
  import opened TurnProtocolProofs
  import opened TurnHandlers
  import opened TurnAgreement
  import opened TurnRaces
  import opened ContextTheorems

  // ----------------------------------------------------- a first turn, as values

  /** A store of one session that has one turn, thinking about what the user said. */
  predicate OneThinking(st: Store, token: Token, client: string) {
    && token.sessionId in st.sessions && st.sessions[token.sessionId].clientId == client
    && Accepts(st, token) && StageAt(st, token) == Thinking
  }

  lemma FirstTurn(lim: Limits, sid: Id, s: Session, text: string, tid: Id, now: int)
    requires ValidLimits(lim) && s.active && s.turns == [] && CleanMessage(text, lim.maxChars).Some? && tid != ""
    ensures var (st, out) := BeginTurn(Store(map[sid := s], [sid]), lim, sid, Text, Some(text), None, [tid], now);
            && out == Ok(Token(sid, tid, s.generation)) && OneThinking(st, out.value, s.clientId)
  {
    assert UniqueId([tid], {}) == Some(tid) && TurnIds([]) == {};
  }

  // ------------------------------------------------------------------ the race

  ghost predicate QuietStep(cfg: Config, s: System, f: Fine) {
    (f.Single? ==> !f.op.Acked? && FreshIds(s, f.op)) && (f.Handled? ==> !Raises(cfg, s, f.ack, f.now))
  }

  lemma QuietCons(cfg: Config, s: System, f: Fine, rest: seq<Fine>)
    requires SystemInv(cfg, s) && QuietStep(cfg, s, f) && QuietRun(cfg, DoFine(cfg, s, f), rest)
    ensures QuietRun(cfg, s, [f] + rest) && RunFine(cfg, s, [f] + rest) == RunFine(cfg, DoFine(cfg, s, f), rest)
  {
    assert ([f] + rest)[1..] == rest;
  }

  /** Nothing is queued yet; the token's session is stored for this client. */
  predicate NothingQueued(s: System, client: string, token: Token) {
    && s.queue == EMPTY_QUEUE && s.itemIds == {} && token.sessionId in s.store.sessions
    && s.store.sessions[token.sessionId].clientId == Strip(client)
  }

  lemma CreatedFirst(cfg: Config, client: string, token: Token, now: int)
    requires ValidLimits(cfg.lim) && SystemInv(cfg, INIT) && Strip(client) != "" && token.sessionId != ""
    ensures var s := Step(cfg, INIT, Create(client, None, [token.sessionId]), now).0;
            && NothingQueued(s, client, token) && s.turnIds == {}
            && s.store == Store(map[token.sessionId := Session(Strip(client), 0, true, NO_CONTEXT, [], [], None, now)],
                                [token.sessionId])
  {
    FirstSession(cfg.lim, client, token.sessionId, now);
    CreateStepIs(cfg, INIT, Create(client, None, [token.sessionId]), now);
  }

  lemma BegunFirst(cfg: Config, s: System, client: string, text: string, token: Token, now: int)
    requires SystemInv(cfg, s) && NothingQueued(s, client, token) && CleanMessage(text, cfg.lim.maxChars).Some?
    requires var r := Session(Strip(client), 0, true, NO_CONTEXT, [], [], None, now);
             s.store == Store(map[token.sessionId := r], [token.sessionId])
    requires token.turnId != "" && token.generation == 0
    ensures var s' := Step(cfg, s, Begin(token.sessionId, Text, Some(text), None, [token.turnId]), now).0;
            NothingQueued(s', client, token) && OneThinking(s'.store, token, Strip(client))
  {
    FirstTurn(cfg.lim, token.sessionId, s.store.sessions[token.sessionId], text, token.turnId, now);
    BeginStepIs(cfg, s, Begin(token.sessionId, Text, Some(text), None, [token.turnId]), now);
  }

  lemma MovedFirst(cfg: Config, s: System, client: string, token: Token, now: int)
    requires SystemInv(cfg, s) && NothingQueued(s, client, token) && OneThinking(s.store, token, Strip(client))
    ensures var s' := Step(cfg, s, Move(token, Synthesizing, None), now).0;
            NothingQueued(s', client, token) && Accepts(s'.store, token) && StageAt(s'.store, token) == Synthesizing
  {
    MoveStepIs(cfg, s, token, Synthesizing, None, now);
    MoveEffect(cfg.lim, s.store, token, Synthesizing, None, now);
    MoveKeepsClient(s.store, token, Synthesizing, now);
  }

  lemma MoveKeepsClient(st: Store, token: Token, stage: Stage, now: int)
    requires token.sessionId in st.sessions
    ensures var st' := Transition(st, token, stage, None, now).0;
            token.sessionId in st'.sessions
              && st'.sessions[token.sessionId].clientId == st.sessions[token.sessionId].clientId
  {
  }

  lemma BeginStepIs(cfg: Config, s: System, op: Op, now: int)
    requires SystemInv(cfg, s) && op.Begin?
    ensures var s' := Step(cfg, s, op, now).0;
            && s'.store
               == BeginTurn(s.store, cfg.lim, op.sessionId, op.origin, op.userText, op.initial, op.candidates, now).0
            && s'.queue == s.queue && s'.itemIds == s.itemIds
  {
  }

  /** What the race ends in: after these steps the client's STARTED raises. */
  ghost predicate Races(cfg: Config, s: System, fs: seq<Fine>, ack: Ack, now: int) {
    SystemInv(cfg, s) && QuietRun(cfg, s, fs) && Raises(cfg, RunFine(cfg, s, fs), ack, now)
  }

  lemma RacesEarlier(cfg: Config, s: System, f: Fine, rest: seq<Fine>, ack: Ack, now: int)
    requires SystemInv(cfg, s) && QuietStep(cfg, s, f) && Races(cfg, DoFine(cfg, s, f), rest, ack, now)
    ensures Races(cfg, s, [f] + rest, ack, now)
  {
    QuietCons(cfg, s, f, rest);
  }

  /** The reply's audio is queued, and the client polls it before the turn is marked. */
  function SpokenAndPolled(client: string, token: Token, ref: string, item: Id, now: int): seq<Fine> {
    [Single(Speak(Strip(client), token, ref, "audio/wav", [item]), now)] + [Single(Poll(Strip(client)), now)]
  }

  lemma RacesWhenQueued(cfg: Config, s: System, queued: Item, now: int)
    requires SystemInv(cfg, s) && s.queue == AddItem(EMPTY_QUEUE, queued) && queued.state == Queued
    requires Accepts(s.store, queued.token) && StageAt(s.store, queued.token) == Synthesizing
    ensures Races(cfg, s, [Single(Poll(queued.clientId), now)], Ack(queued.id, queued.clientId, Started, None), now)
  {
    var c, poll := queued.clientId, Single(Poll(queued.clientId), now);
    StepInv(cfg, s, Poll(c), now);
    PolledRaises(cfg, s, queued, now);
    RacesEarlier(cfg, s, poll, [], Ack(queued.id, c, Started, None), now);
    assert [poll] + [] == [poll];
  }

  lemma PolledRaises(cfg: Config, s: System, queued: Item, now: int)
    requires SystemInv(cfg, s) && s.queue == AddItem(EMPTY_QUEUE, queued) && queued.state == Queued
    requires Accepts(s.store, queued.token) && StageAt(s.store, queued.token) == Synthesizing
    ensures Raises(cfg, Step(cfg, s, Poll(queued.clientId), now).0, Ack(queued.id, queued.clientId, Started, None), now)
  {
    InitInv(cfg);
    AckRaceRaises(cfg, World(s.store, EMPTY_QUEUE, []), queued, now);
    PollStepIs(cfg, s, queued.clientId, now);
    var polled := NextCommand(s.queue, cfg.b, s.store, queued.clientId).0;
    assert WorldOf(Step(cfg, s, Poll(queued.clientId), now).0) == World(s.store, polled, []);
  }

  lemma RacesWhenSpoken(cfg: Config, s: System, client: string, token: Token, ref: string, item: Id, now: int)
    requires SystemInv(cfg, s) && NothingQueued(s, client, token)
    requires Accepts(s.store, token) && StageAt(s.store, token) == Synthesizing
    requires Strip(Strip(client)) != "" && Strip(ref) != "" && item != ""
    ensures Races(cfg, s, SpokenAndPolled(client, token, ref, item, now), Ack(item, Strip(client), Started, None), now)
  {
    var c := Strip(client);
    var speak := Speak(c, token, ref, "audio/wav", [item]);
    StepInv(cfg, s, speak, now);
    SpeakStepIs(cfg, s, speak, now);
    SpeakKeepsStore(cfg, s, speak, now);
    FirstItem(cfg.b, s.store, c, token, ref, item);
    var queued := Item(item, c, token, ref, "audio/wav", Queued, None);
    RacesWhenQueued(cfg, Step(cfg, s, speak, now).0, queued, now);
    RacesEarlier(cfg, s, Single(speak, now), [Single(Poll(c), now)], Ack(item, c, Started, None), now);
  }

  lemma RacesWhenThinking(cfg: Config, s: System, client: string, token: Token, ref: string, item: Id, now: int)
    requires SystemInv(cfg, s) && NothingQueued(s, client, token) && OneThinking(s.store, token, Strip(client))
    requires Strip(Strip(client)) != "" && Strip(ref) != "" && item != ""
    ensures Races(cfg, s,
                  [Single(Move(token, Synthesizing, None), now)] + SpokenAndPolled(client, token, ref, item, now),
                  Ack(item, Strip(client), Started, None), now)
  {
    var move := Move(token, Synthesizing, None);
    StepInv(cfg, s, move, now);
    MovedFirst(cfg, s, client, token, now);
    RacesWhenSpoken(cfg, Step(cfg, s, move, now).0, client, token, ref, item, now);
    RacesEarlier(cfg, s, Single(move, now), SpokenAndPolled(client, token, ref, item, now),
                 Ack(item, Strip(client), Started, None), now);
  }

  /** A session is created, a turn begins and is moved to SYNTHESIZING, its audio is queued
      and polled. */
  function RaceRun(client: string, text: string, token: Token, ref: string, item: Id, now: int): seq<Fine> {
    [Single(Create(client, None, [token.sessionId]), now)]
    + ([Single(Begin(token.sessionId, Text, Some(text), None, [token.turnId]), now)]
       + ([Single(Move(token, Synthesizing, None), now)] + SpokenAndPolled(client, token, ref, item, now)))
  }

  /** From the empty system to an acknowledgement that raises: the client polls and reports
      STARTED before the turn is marked as queued. */
  lemma AckRaceReached(cfg: Config, client: string, text: string, token: Token, ref: string, item: Id, now: int)
    requires ValidLimits(cfg.lim) && ValidBounds(cfg.b)
    requires Strip(client) != "" && Strip(Strip(client)) != "" && CleanMessage(text, cfg.lim.maxChars).Some?
    requires token.sessionId != "" && token.turnId != "" && token.generation == 0 && Strip(ref) != "" && item != ""
    ensures Races(cfg, INIT, RaceRun(client, text, token, ref, item, now), Ack(item, Strip(client), Started, None), now)
  {
    var ack := Ack(item, Strip(client), Started, None);
    InitInv(cfg);
    var create := Create(client, None, [token.sessionId]);
    var begin := Begin(token.sessionId, Text, Some(text), None, [token.turnId]);
    StepInv(cfg, INIT, create, now);
    CreatedFirst(cfg, client, token, now);
    var s1 := Step(cfg, INIT, create, now).0;
    StepInv(cfg, s1, begin, now);
    BegunFirst(cfg, s1, client, text, token, now);
    RacesWhenThinking(cfg, Step(cfg, s1, begin, now).0, client, token, ref, item, now);
    var last := [Single(Move(token, Synthesizing, None), now)] + SpokenAndPolled(client, token, ref, item, now);
    RacesEarlier(cfg, s1, Single(begin, now), last, ack, now);
    RacesEarlier(cfg, INIT, Single(create, now), [Single(begin, now)] + last, ack, now);
  }

  /** So from the empty system, however single operations interleave: the first
      acknowledgement to raise is a STARTED that comes too early, and every such one raises. */
  lemma FirstRaiseFromStart(cfg: Config, fs: seq<Fine>, ack: Ack, now: int)
    requires ValidLimits(cfg.lim) && ValidBounds(cfg.b) && (InitInv(cfg); QuietRun(cfg, INIT, fs))
    ensures (InitInv(cfg); Raises(cfg, RunFine(cfg, INIT, fs), ack, now)
                           <==> StartsTooEarly(WorldOf(RunFine(cfg, INIT, fs)), ack))
  {
    EmptyInStep(cfg);
    FirstRaiseIff(cfg, INIT, fs, ack, now);
  }

  lemma FirstItem(b: Bounds, st: Store, c: string, token: Token, ref: string, item: Id)
    requires ValidBounds(b) && Accepts(st, token) && Strip(c) != "" && Strip(ref) != "" && item != ""
    ensures Enqueue(EMPTY_QUEUE, b, st, c, token, ref, "audio/wav", [item]).0
            == AddItem(EMPTY_QUEUE, Item(item, c, token, ref, "audio/wav", Queued, None))
  {
    assert "audio/" <= "audio/wav";
    assert UniqueId([item], {}) == Some(item);
  }

  lemma SpeakKeepsStore(cfg: Config, s: System, op: Op, now: int)
    requires SystemInv(cfg, s) && op.Speak?
    ensures Step(cfg, s, op, now).0.store == s.store
  {
  }

  // --------------------------------------------------------- the stranded turn

  /** A session is created and a turn begins with what the user typed. */
  function ChatBegun(client: string, text: string, token: Token, now: int): seq<Served> {
    [Served(NewSession(client, None, [token.sessionId]), now),
     Served(BeginChat(token.sessionId, Text, text, [token.turnId]), now)]
  }

  lemma ThinkingReached(cfg: Config, client: string, text: string, token: Token, now: int) returns (used: set<Id>)
    requires ValidLimits(cfg.lim) && ValidBounds(cfg.b)
    requires Strip(client) != "" && CleanMessage(text, cfg.lim.maxChars).Some?
    requires token.sessionId != "" && token.turnId != "" && token.generation == 0
    ensures FreshTurns({}, ChatBegun(client, text, token, now))
    ensures var w := ServeFromStart(cfg, ChatBegun(client, text, token, now));
            WorldInv(cfg, used, w) && OneThinking(w.store, token, Strip(client))
  {
    var rs, w := ChatBegun(client, text, token, now), World(EMPTY_STORE, EMPTY_QUEUE, []);
    EmptyWorld(cfg);
    FirstSession(cfg.lim, client, token.sessionId, now);
    HandleCreates(cfg, w, client, token.sessionId, now);
    HandleKeeps(cfg, {}, w, rs[0].request, now);
    assert {} + Elements(TurnCandidates(rs[0].request)) == {};
    var w1 := Handle(cfg, w, rs[0].request, now).0;
    FirstTurn(cfg.lim, token.sessionId, w1.store.sessions[token.sessionId], text, token.turnId, now);
    HandleBegins(cfg, w1, token.sessionId, text, token.turnId, now);
    HandleKeeps(cfg, {}, w1, rs[1].request, now);
    used := {} + Elements(TurnCandidates(rs[1].request));
    ServeTwo(cfg, w, rs[0], rs[1]);
  }

  lemma HandleCreates(cfg: Config, w: World, client: string, sid: Id, now: int)
    requires StoreOk(cfg.lim, w.store) && ValidBounds(cfg.b) && Ordered(w.queue)
    ensures Handle(cfg, w, NewSession(client, None, [sid]), now).0
            == w.(store := CreateSession(w.store, cfg.lim, client, None, [sid], now).0)
  {
  }

  lemma HandleBegins(cfg: Config, w: World, sid: Id, text: string, tid: Id, now: int)
    requires StoreOk(cfg.lim, w.store) && ValidBounds(cfg.b) && Ordered(w.queue)
    ensures Handle(cfg, w, BeginChat(sid, Text, text, [tid]), now).0
            == w.(store := BeginTurn(w.store, cfg.lim, sid, Text, Some(text), None, [tid], now).0)
  {
  }

  lemma ServeTwo(cfg: Config, w: World, a: Served, b: Served)
    requires WorldInv(cfg, {}, w) && Elements(TurnCandidates(a.request)) == {}
    ensures FreshTurns({}, [a, b]) && Ordered(w.queue)
    ensures var w1 := Handle(cfg, w, a.request, a.now).0;
            && WorldInv(cfg, {}, w1) && Ordered(w1.queue)
            && Serve(cfg, {}, w, [a, b]) == Handle(cfg, w1, b.request, b.now).0
  {
    FreshTwo(a, b);
    HandleKeeps(cfg, {}, w, a.request, a.now);
    assert {} + Elements(TurnCandidates(a.request)) == {};
    var w1 := Handle(cfg, w, a.request, a.now).0;
    HandleKeeps(cfg, {}, w1, b.request, b.now);
    assert [a, b][1..] == [b];
    ServeOne(cfg, {}, w1, b);
  }

  lemma FreshTwo(a: Served, b: Served)
    requires Elements(TurnCandidates(a.request)) == {}
    ensures FreshTurns({}, [a, b]) && FreshTurns({}, [b])
  {
    assert {} + Elements(TurnCandidates(a.request)) == {};
    assert [a, b][1..] == [b] && [b][1..] == [];
  }

  lemma ServeOne(cfg: Config, used: set<Id>, w: World, b: Served)
    requires WorldInv(cfg, used, w) && FreshTurns(used, [b])
    ensures Ordered(w.queue) && Serve(cfg, used, w, [b]) == Handle(cfg, w, b.request, b.now).0
  {
    HandleKeeps(cfg, used, w, b.request, b.now);
    assert [b][1..] == [];
  }

  /** A reply of one blank, in a state reached from the empty world: the handler raises, and
      the turn stays open, thinking. */
  lemma BlankReplyStrands(cfg: Config, client: string, text: string, token: Token, speak: bool, voice: Voice,
                          candidates: seq<Id>, now: int)
    requires ValidLimits(cfg.lim) && ValidBounds(cfg.b)
    requires Strip(client) != "" && CleanMessage(text, cfg.lim.maxChars).Some?
    requires token.sessionId != "" && token.turnId != "" && token.generation == 0
    ensures FreshTurns({}, ChatBegun(client, text, token, now))
    ensures var w := ServeFromStart(cfg, ChatBegun(client, text, token, now));
            && Accepts(w.store, token) && StageAt(w.store, token) == Thinking && !Settled(w, token)
            && Finish(cfg, w, token, " ", speak, voice, candidates, now) == (w, HandlerRaised)
  {
    var used := ThinkingReached(cfg, client, text, token, now);
    var w := ServeFromStart(cfg, ChatBegun(client, text, token, now));
    FinishSettles(cfg, used, w, token, " ", speak, voice, candidates, now);
    assert " "[1..] == "";
    assert CleanMessage(" ", cfg.lim.maxChars).None?;
  }
}
