/** The contexts of the stored sessions along every run. */
module ContextTheorems {
  import opened Collections
  import opened SessionContexts
  import opened Sessions
  import opened Playback
  import opened TurnProtocol
  import opened TurnProtocolProofs
  import opened TurnTheorems

  ghost predicate ContextNormal(st: Store, id: Id) {
    id in st.sessions ==> Normal(st.sessions[id].context)
  }

  ghost predicate ContextsNormal(st: Store) {
    forall id {:trigger ContextNormal(st, id)} :: ContextNormal(st, id)
  }

  /** Every session of the new store was there before, with the same context. */
  ghost predicate ContextsKept(st: Store, st': Store) {
    forall id :: id in st'.sessions ==> id in st.sessions && st'.sessions[id].context == st.sessions[id].context
  }

  lemma KeptAreNormal(st: Store, st': Store)
    requires ContextsNormal(st) && ContextsKept(st, st')
    ensures ContextsNormal(st')
  {
    forall id ensures ContextNormal(st', id) { assert ContextNormal(st, id); }
  }

  lemma CreateNormal(lim: Limits, st: Store, clientId: string, context: Option<SessionContext>, candidates: seq<Id>,
                     now: int)
    requires StoreOk(lim, st) && ContextsNormal(st)
    ensures ContextsNormal(CreateSession(st, lim, clientId, context, candidates, now).0)
  {
    var (st', out) := CreateSession(st, lim, clientId, context, candidates, now);
    CreateKeepsOk(lim, st, clientId, context, candidates, now);
    NormalizeNormal(Given(context));
    CreatedWith(lim, st, clientId, context, candidates, now);
    forall id ensures ContextNormal(st', id) { assert ContextNormal(st, id); }
  }

  /** A new session has the normal form of the context it was given; given none, it has
      none. */
  lemma CreatedWith(lim: Limits, st: Store, clientId: string, context: Option<SessionContext>,
                    candidates: seq<Id>, now: int)
    requires StoreOk(lim, st)
    ensures var (st', out) := CreateSession(st, lim, clientId, context, candidates, now);
            out.Ok? ==>
              && out.value in st'.sessions
              && Some(st'.sessions[out.value].context) == Normalize(Given(context))
              && (context.None? ==> st'.sessions[out.value].context == NO_CONTEXT)
  {
    NoContextNormal();
    NormalIffFixed(NO_CONTEXT);
  }

  function Given(context: Option<SessionContext>): SessionContext {
    if context.Some? then context.value else NO_CONTEXT
  }

  // ------------------------------------------------ what a refusal may cost

  /** Every proposal the id factory gets to make is blank or taken. */
  predicate Exhausted(candidates: seq<Id>, taken: set<Id>) {
    forall i :: 0 <= i < |candidates| && i < 8 ==> candidates[i] == "" || candidates[i] in taken
  }

  lemma {:induction false} NoneFrom(candidates: seq<Id>, taken: set<Id>, from: nat)
    requires from <= 8 && Exhausted(candidates, taken)
    ensures UniqueIdFrom(candidates, taken, from).None?
    decreases 8 - from
  {
    if from < 8 && from < |candidates| { NoneFrom(candidates, taken, from + 1); }
  }

  lemma NoneIffExhausted(candidates: seq<Id>, taken: set<Id>)
    ensures UniqueId(candidates, taken).None? <==> Exhausted(candidates, taken)
  {
    if Exhausted(candidates, taken) { NoneFrom(candidates, taken, 0); }
  }

  lemma ForgetTakes(st: Store, id: Id)
    requires id in st.sessions
    ensures Forget(st, id).sessions.Keys == st.sessions.Keys - {id} && Forget(st, id) != st
  {
    assert id !in Forget(st, id).sessions;
  }

  /** The store is full, a closed session can make room, and the creation fails after it
      did: the context is refused, or no id is left. */
  predicate CostsASession(lim: Limits, st: Store, clientId: string, context: Option<SessionContext>,
                          candidates: seq<Id>)
    requires forall id :: id in st.order ==> id in st.sessions
  {
    && Strip(clientId) != "" && |st.sessions| >= lim.maxSessions
    && var oldest := OldestClosed(st, st.order);
       oldest.Some?
       && (Normalize(Given(context)).None? || Exhausted(candidates, st.sessions.Keys - {oldest.value}))
  }

  /** Exactly then a creation that is refused changes the store: a closed session is gone. */
  lemma RefusedCreateCosts(lim: Limits, st: Store, clientId: string, context: Option<SessionContext>,
                           candidates: seq<Id>, now: int)
    requires StoreOk(lim, st)
    ensures var (st', out) := CreateSession(st, lim, clientId, context, candidates, now);
            && (out.Raised? && st' != st <==> CostsASession(lim, st, clientId, context, candidates))
            && (out.Raised? && st' != st ==> st' == Forget(st, OldestClosed(st, st.order).value))
  {
    var oldest := OldestClosed(st, st.order);
    if |st.sessions| >= lim.maxSessions && oldest.Some? {
      ForgetTakes(st, oldest.value);
      NoneIffExhausted(candidates, st.sessions.Keys - {oldest.value});
    }
  }

  const LONG_TEXT := seq(513, _ => 'x')

  lemma LongTextRefused()
    ensures Normalize(NO_CONTEXT.(projectId := Some(LONG_TEXT))).None?
  {
    assert LONG_TEXT[0] == 'x' && LONG_TEXT[512] == 'x';
    assert StripLeft(LONG_TEXT) == LONG_TEXT && StripRight(LONG_TEXT) == LONG_TEXT;
  }

  lemma FirstSession(lim: Limits, client: string, id: Id, now: int)
    requires ValidLimits(lim) && Strip(client) != "" && id != ""
    ensures var s := Session(Strip(client), 0, true, NO_CONTEXT, [], [], None, now);
            CreateSession(EMPTY_STORE, lim, client, None, [id], now) == (Store(map[id := s], [id]), Ok(id))
  {
    NoContextNormal();
    NormalIffFixed(NO_CONTEXT);
    assert UniqueId([id], {}) == Some(id);
    var s := Session(Strip(client), 0, true, NO_CONTEXT, [], [], None, now);
    assert EMPTY_STORE.sessions[id := s] == map[id := s] && EMPTY_STORE.order + [id] == [id];
  }

  lemma OnlySessionClosed(id: Id, s: Session, now: int)
    ensures var closed := s.(generation := s.generation + 1, turns := CancelTurns(s.turns, None), active := false,
                             history := [], pendingRequest := None, updatedAt := now);
            CloseSession(Store(map[id := s], [id]), id, now) == (Store(map[id := closed], [id]), Ok(()))
  {
    forall t: Session ensures map[id := s][id := t] == map[id := t] {}
  }

  lemma OnlySessionEvicted(lim: Limits, client: string, id: Id, s: Session, context: SessionContext, next: Id, now: int)
    requires lim.maxSessions == 1 && !s.active && Strip(client) != "" && next != "" && Normalize(context).None?
    ensures CreateSession(Store(map[id := s], [id]), lim, client, Some(context), [next], now)
            == (EMPTY_STORE, Raised(ContextRefused))
  {
    var st := Store(map[id := s], [id]);
    assert st.order[..0] == [] && OldestClosed(st, st.order) == Some(id);
    assert |st.sessions| == 1 && Forget(st, id) == EMPTY_STORE;
    assert UniqueId([next], {}) == Some(next);
  }

  /** A case that occurs: room for one session, which is created and closed; then one is
      asked for with a project id of 513 characters.  It is refused, and the closed session
      is gone. */
  lemma LongProjectCostsASession(lim: Limits, client: string, id: Id, next: Id, now: int)
    requires ValidLimits(lim) && lim.maxSessions == 1 && Strip(client) != "" && id != "" && next != ""
    ensures var st := CloseSession(CreateSession(EMPTY_STORE, lim, client, None, [id], now).0, id, now).0;
            && StoreOk(lim, st) && id in st.sessions
            && CreateSession(st, lim, client, Some(NO_CONTEXT.(projectId := Some(LONG_TEXT))), [next], now)
               == (EMPTY_STORE, Raised(ContextRefused))
  {
    CreateKeepsOk(lim, EMPTY_STORE, client, None, [id], now);
    FirstSession(lim, client, id, now);
    var first := CreateSession(EMPTY_STORE, lim, client, None, [id], now).0;
    CloseKeepsOk(lim, first, id, now);
    OnlySessionClosed(id, first.sessions[id], now);
    LongTextRefused();
    var closed := CloseSession(first, id, now).0.sessions[id];
    OnlySessionEvicted(lim, client, id, closed, NO_CONTEXT.(projectId := Some(LONG_TEXT)), next, now);
  }

  lemma UpdateNormal(st: Store, id: Id, changes: Changes, clear: bool, now: int)
    requires ContextsNormal(st)
    ensures ContextsNormal(UpdateContext(st, id, changes, clear, now).0)
  {
    var st' := UpdateContext(st, id, changes, clear, now).0;
    if id in st.sessions { NormalizeNormal(Apply(changes, st.sessions[id].context)); }
    forall k ensures ContextNormal(st', k) { assert ContextNormal(st, k); }
  }

  lemma BeginKeepsContexts(lim: Limits, st: Store, id: Id, origin: Origin, text: Option<string>, initial: Option<Stage>,
                           candidates: seq<Id>, now: int)
    requires ValidLimits(lim)
    ensures ContextsKept(st, BeginTurn(st, lim, id, origin, text, initial, candidates, now).0)
  {
  }

  lemma MovesKeepContexts(st: Store, token: Token, stage: Stage, failure: Option<string>, now: int)
    ensures ContextsKept(st, Transition(st, token, stage, failure, now).0)
    ensures ContextsKept(st, Cancel(st, token.sessionId, Some(token.turnId), now).0)
    ensures ContextsKept(st, Terminalize(st, token, stage, failure, now).0)
  {
  }

  lemma CommitKeepsContexts(lim: Limits, st: Store, token: Token, role: Role, text: string, now: int)
    requires ValidLimits(lim)
    ensures ContextsKept(st, CommitText(st, lim, token, role, text, now).0)
  {
  }

  lemma TokenOpsKeepContexts(cfg: Config, s: System, op: Op, now: int)
    requires SystemInv(cfg, s) && (op.Begin? || op.Move? || op.End? || op.Commit?)
    ensures ContextsKept(s.store, Step(cfg, s, op, now).0.store)
  {
    match op {
      case Begin(id, origin, text, initial, candidates) =>
        BeginKeepsContexts(cfg.lim, s.store, id, origin, text, initial, candidates, now);
      case Move(token, stage, failure) => MovesKeepContexts(s.store, token, stage, failure, now);
      case End(token, stage, failure) => MovesKeepContexts(s.store, token, stage, failure, now);
      case Commit(token, role, text) => CommitKeepsContexts(cfg.lim, s.store, token, role, text, now);
    }
  }

  lemma SessionOpsKeepContexts(cfg: Config, s: System, op: Op, now: int)
    requires SystemInv(cfg, s) && (op.CancelTurn? || op.Close? || op.Pending?)
    ensures ContextsKept(s.store, Step(cfg, s, op, now).0.store)
  {
    match op {
      case CancelTurn(id) => EndsKeepContexts(s.store, id, now);
      case Close(id) => EndsKeepContexts(s.store, id, now);
      case Pending(id, text) =>
        PendingStepIs(cfg, s, id, text, now);
        PendingKeepsContexts(cfg.lim, s.store, id, text, now);
    }
  }

  lemma EndsKeepContexts(st: Store, id: Id, now: int)
    ensures ContextsKept(st, Cancel(st, id, None, now).0)
    ensures ContextsKept(st, CloseSession(st, id, now).0)
  {
  }

  lemma PendingKeepsContexts(lim: Limits, st: Store, id: Id, text: Option<string>, now: int)
    ensures ContextsKept(st, SetPending(st, lim, id, text, now).0)
  {
  }

  lemma StepNormal(cfg: Config, s: System, op: Op, now: int)
    requires SystemInv(cfg, s) && ContextsNormal(s.store)
    ensures ContextsNormal(Step(cfg, s, op, now).0.store)
  {
    match op {
      case Create(clientId, context, candidates) =>
        CreateStepIs(cfg, s, op, now);
        CreateNormal(cfg.lim, s.store, clientId, context, candidates, now);
      case Context(id, changes, clear) =>
        ContextStepIs(cfg, s, id, changes, clear, now);
        UpdateNormal(s.store, id, changes, clear, now);
      case _ =>
        if op.CancelTurn? || op.Close? || op.Pending? { SessionOpsKeepContexts(cfg, s, op, now); }
        else if op.Begin? || op.Move? || op.End? || op.Commit? { TokenOpsKeepContexts(cfg, s, op, now); }
        else { QueueOpsKeepStore(cfg, s, op, now); }
        KeptAreNormal(s.store, Step(cfg, s, op, now).0.store);
    }
  }

  /** Along every run every stored session's context is normal. */
  lemma {:induction false} ContextsForever(cfg: Config, s: System, ops: seq<Timed>)
    requires SystemInv(cfg, s) && FreshRun(cfg, s, ops) && ContextsNormal(s.store)
    ensures ContextsNormal(Run(cfg, s, ops).store)
    decreases |ops|
  {
    if ops != [] {
      StepInv(cfg, s, ops[0].op, ops[0].now);
      StepNormal(cfg, s, ops[0].op, ops[0].now);
      ContextsForever(cfg, Step(cfg, s, ops[0].op, ops[0].now).0, ops[1..]);
    }
  }

  const NO_CHANGES := Changes(Keep, Keep, Keep, Keep, Keep, Keep)

  /** So an update that changes nothing is accepted in every state a run reaches, and
      changes nothing; an update is refused exactly when the changed context is. */
  lemma UpdateInReachedState(cfg: Config, ops: seq<Timed>, id: Id, changes: Changes, now: int)
    requires ValidLimits(cfg.lim) && ValidBounds(cfg.b) && (InitInv(cfg); FreshRun(cfg, INIT, ops))
    requires var st := (InitInv(cfg); Run(cfg, INIT, ops)).store; id in st.sessions && st.sessions[id].active
    ensures var st := (InitInv(cfg); Run(cfg, INIT, ops)).store;
            var (st', out) := UpdateContext(st, id, changes, false, now);
            && (out.Raised? <==> Normalize(Apply(changes, st.sessions[id].context)).None?)
            && (changes == NO_CHANGES ==> out.Ok? && st'.sessions[id] == st.sessions[id].(updatedAt := now))
  {
    InitInv(cfg);
    forall k ensures ContextNormal(INIT.store, k) {}
    ContextsForever(cfg, INIT, ops);
    var st := Run(cfg, INIT, ops).store;
    assert ContextNormal(st, id);
    NormalIffFixed(st.sessions[id].context);
  }
}
