/** With whole handlers as steps, the playback queue and the session store agree on
    where each turn is, so no acknowledgement is ever an illegal transition. */
module TurnAgreement {
  import opened Collections
  import opened SessionContexts
  import opened Sessions
  import opened SessionSteps
  import opened Playback
  import opened PlaybackInvariant
  import opened PlaybackEffects
  import opened TurnProtocol
  import opened TurnProtocolProofs
  import opened TurnHandlers

  /** The stage a turn is in while its playback item is in `state`. */
  predicate Matches(state: PlaybackState, stage: Stage) {
    match state
    case Queued => stage == PlaybackQueued
    case Started => stage == Stage.Playing
    case Cancelled => stage == PlaybackQueued || stage == Stage.Playing
    case _ => false
  }

  ghost predicate ItemAgrees(st: Store, item: Item) {
    Accepts(st, item.token) ==> Matches(item.state, StageAt(st, item.token))
  }

  ghost predicate OnlyItem(st: Store, q: Queue, a: Id, b: Id) {
    a in q.items && b in q.items && q.items[a].token == q.items[b].token && Accepts(st, q.items[a].token) ==> a == b
  }

  /** Each item of accepted work matches its turn's stage, and a turn has one item. */
  ghost predicate Agree(st: Store, q: Queue) {
    && (forall id {:trigger q.items[id]} :: id in q.items ==> ItemAgrees(st, q.items[id]))
    && (forall a, b {:trigger OnlyItem(st, q, a, b)} :: OnlyItem(st, q, a, b))
  }

  // -------------------------------------------------- what stays accepted

  /** Whatever is accepted after was accepted before, at the same stage. */
  ghost predicate NarrowsTo(st: Store, st': Store) {
    forall t {:trigger Accepts(st', t)} :: Accepts(st', t) ==> Accepts(st, t) && StageAt(st', t) == StageAt(st, t)
  }

  lemma NarrowKeepsAgree(st: Store, st': Store, q: Queue)
    requires Agree(st, q) && NarrowsTo(st, st')
    ensures Agree(st', q)
  {
    forall a, b ensures OnlyItem(st', q, a, b) { assert OnlyItem(st, q, a, b); }
  }

  lemma SameTurnsNarrow(st: Store, st': Store)
    requires forall id {:trigger id in st'.sessions} :: id in st'.sessions ==>
               || (id in st.sessions && st'.sessions[id].turns == st.sessions[id].turns
                   && (st'.sessions[id].active ==> st.sessions[id].active)
                   && st'.sessions[id].generation == st.sessions[id].generation)
               || st'.sessions[id].turns == []
    ensures NarrowsTo(st, st')
  {
  }

  ghost predicate NoneFor(st: Store, id: Id) {
    forall t {:trigger Accepts(st, t)} :: Accepts(st, t) ==> t.sessionId != id
  }

  lemma CancelNarrows(lim: Limits, st: Store, id: Id, now: int)
    requires StoreOk(lim, st)
    ensures var (st', out) := Cancel(st, id, None, now); NarrowsTo(st, st') && (out.Ok? ==> NoneFor(st', id))
  {
    CancelKeepsOk(lim, st, id, None, now);
    var st' := Cancel(st, id, None, now).0;
    if id in st.sessions {
      forall t: Token | t.sessionId == id ensures !Accepts(st', t) {}
    }
  }

  lemma CloseNarrows(st: Store, id: Id, now: int)
    ensures var (st', out) := CloseSession(st, id, now); NarrowsTo(st, st') && (out.Ok? ==> NoneFor(st', id))
  {
  }

  lemma OneAcceptedPerSession(lim: Limits, st: Store, t: Token, u: Token)
    requires StoreOk(lim, st) && Accepts(st, t) && Accepts(st, u) && t.sessionId == u.sessionId
    ensures t == u
  {
    AcceptsExactlyOpenToken(lim, st, t);
    AcceptsExactlyOpenToken(lim, st, u);
  }

  /** Moving the accepted turn `token` changes the stage of that turn only. */
  lemma MoveEffect(lim: Limits, st: Store, token: Token, stage: Stage, code: Option<string>, now: int)
    requires StoreOk(lim, st) && Accepts(st, token) && Legal(StageAt(st, token), stage)
    ensures var (st', out) := Transition(st, token, stage, code, now);
            && out == Ok(true) && StoreOk(lim, st')
            && (Accepts(st', token) <==> !Terminal(stage))
            && (!Terminal(stage) ==> StageAt(st', token) == stage)
            && Moved(st, st', token, stage)
  {
    TransitionKeepsOk(lim, st, token, stage, code, now);
    var st' := Transition(st, token, stage, code, now).0;
    MovedSelf(st, token, stage, code, now);
    forall t | t != token && Accepts(st', t) ensures Accepts(st, t) && StageAt(st', t) == StageAt(st, t) {
      MovedOther(lim, st, token, stage, code, now, t);
    }
  }

  lemma MovedSelf(st: Store, token: Token, stage: Stage, code: Option<string>, now: int)
    requires Accepts(st, token) && Legal(StageAt(st, token), stage)
    ensures var (st', out) := Transition(st, token, stage, code, now);
            && out == Ok(true)
            && (Accepts(st', token) <==> !Terminal(stage))
            && (!Terminal(stage) ==> StageAt(st', token) == stage)
  {
    var st' := Transition(st, token, stage, code, now).0;
    LegalClimbs(StageAt(st, token), stage);
    FindIsStable(st.sessions[token.sessionId].turns, st'.sessions[token.sessionId].turns, token.turnId);
  }

  /** Whatever is accepted after a move was accepted before it. */
  lemma MovedAccepts(st: Store, token: Token, stage: Stage, code: Option<string>, now: int, t: Token)
    requires Accepts(st, token) && Legal(StageAt(st, token), stage)
    requires Accepts(Transition(st, token, stage, code, now).0, t)
    ensures Accepts(st, t)
    ensures t.sessionId != token.sessionId ==> StageAt(Transition(st, token, stage, code, now).0, t) == StageAt(st, t)
  {
    var st' := Transition(st, token, stage, code, now).0;
    LegalClimbs(StageAt(st, token), stage);
    FindIsStable(st.sessions[token.sessionId].turns, st'.sessions[token.sessionId].turns, t.turnId);
  }

  lemma MovedOther(lim: Limits, st: Store, token: Token, stage: Stage, code: Option<string>, now: int, t: Token)
    requires StoreOk(lim, st) && Accepts(st, token) && Legal(StageAt(st, token), stage) && t != token
    requires Accepts(Transition(st, token, stage, code, now).0, t)
    ensures Accepts(st, t) && StageAt(Transition(st, token, stage, code, now).0, t) == StageAt(st, t)
  {
    MovedAccepts(st, token, stage, code, now, t);
    if t.sessionId == token.sessionId {
      OneAcceptedPerSession(lim, st, t, token);
    }
  }

  lemma {:induction false} FindIsStable(a: seq<Turn>, b: seq<Turn>, id: Id)
    requires |a| == |b| && forall i :: 0 <= i < |a| ==> a[i].id == b[i].id
    ensures FindTurn(a, id) == FindTurn(b, id)
  {
    if a != [] { FindIsStable(a[1..], b[1..], id); }
  }

  lemma MoveOtherwise(st: Store, token: Token, stage: Stage, code: Option<string>, now: int)
    requires !(Accepts(st, token) && Legal(StageAt(st, token), stage))
    ensures Transition(st, token, stage, code, now).0 == st
  {
  }

  lemma CommitEffect(lim: Limits, st: Store, token: Token, role: Role, text: string, now: int)
    requires StoreOk(lim, st)
    ensures var (st', out) := CommitText(st, lim, token, role, text, now);
            && NarrowsTo(st, st')
            && (Accepts(st, token) ==> Accepts(st', token) && StageAt(st', token) == StageAt(st, token))
            && (out == Ok(true) <==> Accepts(st, token) && CleanMessage(text, lim.maxChars).Some?)
            && (out == Ok(false) <==> !Accepts(st, token))
  {
  }

  // ------------------------------------------------------ moving a turn on

  lemma MoveAgree(lim: Limits, st: Store, q: Queue, token: Token, stage: Stage, code: Option<string>, now: int)
    requires StoreOk(lim, st) && Agree(st, q)
    requires stage in {Transcribing, Thinking, Synthesizing, Stage.Completed, Stage.Failed}
    ensures Agree(Transition(st, token, stage, code, now).0, q)
  {
    if Accepts(st, token) && Legal(StageAt(st, token), stage) {
      MoveEffect(lim, st, token, stage, code, now);
      MovedAgree(st, Transition(st, token, stage, code, now).0, q, token, stage);
    } else {
      MoveOtherwise(st, token, stage, code, now);
    }
  }

  ghost predicate Moved(st: Store, st': Store, token: Token, stage: Stage) {
    && (Accepts(st', token) ==> Accepts(st, token) && StageAt(st', token) == stage && !Terminal(stage))
    && (forall t {:trigger Accepts(st', t)} ::
          t != token && Accepts(st', t) ==> Accepts(st, t) && StageAt(st', t) == StageAt(st, t))
  }

  lemma MovedAgree(st: Store, st': Store, q: Queue, token: Token, stage: Stage)
    requires Agree(st, q) && Moved(st, st', token, stage)
    requires Accepts(st, token) && Legal(StageAt(st, token), stage)
    requires stage in {Transcribing, Thinking, Synthesizing, Stage.Completed, Stage.Failed}
    ensures Agree(st', q)
  {
    forall id | id in q.items ensures ItemAgrees(st', q.items[id]) { assert ItemAgrees(st, q.items[id]); }
    forall a, b ensures OnlyItem(st', q, a, b) { assert OnlyItem(st, q, a, b); }
  }

  // ------------------------------------------------------------ the invariant

  /** The turn ids of session `id` have all been handed out. */
  ghost predicate TurnsKnown(used: set<Id>, st: Store, id: Id) {
    id in st.sessions ==> TurnIds(st.sessions[id].turns) <= used
  }

  ghost predicate ItemTurnKnown(used: set<Id>, q: Queue, id: Id) {
    id in q.items ==> q.items[id].token.turnId in used
  }

  ghost predicate Known(used: set<Id>, st: Store, q: Queue) {
    && (forall id {:trigger TurnsKnown(used, st, id)} :: TurnsKnown(used, st, id))
    && (forall id {:trigger ItemTurnKnown(used, q, id)} :: ItemTurnKnown(used, q, id))
  }

  /** Both stores are well formed, and they agree. */
  ghost predicate WorldInv(cfg: Config, used: set<Id>, w: World) {
    && StoreOk(cfg.lim, w.store)
    && QueueInv(w.queue, cfg.b)
    && Agree(w.store, w.queue)
    && Known(used, w.store, w.queue)
  }

  lemma StoreChange(cfg: Config, used: set<Id>, w: World, st: Store)
    requires WorldInv(cfg, used, w)
    requires StoreOk(cfg.lim, st) && KeepsTurnIds(w.store, st) && Agree(st, w.queue)
    ensures WorldInv(cfg, used, w.(store := st))
  {
    forall id ensures TurnsKnown(used, st, id) { assert TurnsKnown(used, w.store, id); }
  }

  lemma QueueChange(cfg: Config, used: set<Id>, w: World, q: Queue)
    requires WorldInv(cfg, used, w)
    requires QueueInv(q, cfg.b) && Agree(w.store, q)
    requires forall id :: id in q.items ==> id in w.queue.items && q.items[id].token == w.queue.items[id].token
    ensures WorldInv(cfg, used, w.(queue := q))
  {
    forall id ensures ItemTurnKnown(used, q, id) { assert ItemTurnKnown(used, w.queue, id); }
  }

  lemma SomeSession(st: Store, st': Store, r: Outcome<Id, Error>)
    requires forall id :: id in st'.sessions && r != Ok(id) ==> id in st.sessions && st'.sessions[id] == st.sessions[id]
    requires r.Ok? ==> r.value in st'.sessions && st'.sessions[r.value].turns == []
    ensures forall id {:trigger id in st'.sessions} :: id in st'.sessions ==>
              (id in st.sessions && st'.sessions[id] == st.sessions[id]) || st'.sessions[id].turns == []
  {
  }

  /** Only the new turn becomes accepted. */
  ghost predicate OnlyBegun(st: Store, st': Store, begun: Token) {
    forall t {:trigger Accepts(st', t)} ::
        Accepts(st', t) && t != begun ==> Accepts(st, t) && StageAt(st', t) == StageAt(st, t)
  }

  lemma StartEffect(lim: Limits, st: Store, sessionId: Id, origin: Origin, clean: Option<string>,
                    stage: Stage, candidates: seq<Id>, now: int)
    requires StoreOk(lim, st) && !Terminal(stage)
    ensures var (st', out) := StartTurn(st, lim, sessionId, origin, clean, stage, candidates, now);
            if out.Ok? then Accepts(st', out.value) && StageAt(st', out.value) == stage && OnlyBegun(st, st', out.value)
            else st' == st
  {
    StartKeepsOk(lim, st, sessionId, origin, clean, stage, candidates, now);
    var (st', out) := StartTurn(st, lim, sessionId, origin, clean, stage, candidates, now);
    if out.Ok? {
      StartedLast(lim, st, sessionId, origin, clean, stage, candidates, now);
      OnlyOneBegun(lim, st, st', out.value);
    }
  }

  lemma StartedLast(lim: Limits, st: Store, sessionId: Id, origin: Origin, clean: Option<string>,
                    stage: Stage, candidates: seq<Id>, now: int)
    requires StoreOk(lim, st) && !Terminal(stage)
    requires StartTurn(st, lim, sessionId, origin, clean, stage, candidates, now).1.Ok?
    ensures var (st', out) := StartTurn(st, lim, sessionId, origin, clean, stage, candidates, now);
            && Accepts(st', out.value) && StageAt(st', out.value) == stage
            && out.value.sessionId in st.sessions
            && st' == Put(st, out.value.sessionId, st'.sessions[out.value.sessionId])
  {
    StartKeepsOk(lim, st, sessionId, origin, clean, stage, candidates, now);
    var (st', out) := StartTurn(st, lim, sessionId, origin, clean, stage, candidates, now);
    AcceptsExactlyOpenToken(lim, st', out.value);
    var turns := st'.sessions[sessionId].turns;
    assert FindTurn(turns, out.value.turnId) == |turns| - 1;
  }

  /** A session accepts one token, and no other session was touched. */
  lemma OnlyOneBegun(lim: Limits, st: Store, st': Store, begun: Token)
    requires StoreOk(lim, st') && Accepts(st', begun) && begun.sessionId in st.sessions
    requires st' == Put(st, begun.sessionId, st'.sessions[begun.sessionId])
    ensures OnlyBegun(st, st', begun)
  {
    forall t | Accepts(st', t) && t != begun ensures Accepts(st, t) && StageAt(st', t) == StageAt(st, t) {
      if t.sessionId == begun.sessionId { OneAcceptedPerSession(lim, st', t, begun); }
    }
  }

  lemma BeginEffect(lim: Limits, st: Store, sessionId: Id, origin: Origin, text: Option<string>,
                    initial: Option<Stage>, candidates: seq<Id>, now: int)
    requires StoreOk(lim, st)
    ensures var (st', out) := BeginTurn(st, lim, sessionId, origin, text, initial, candidates, now);
            if out.Ok? then
              && Accepts(st', out.value)
              && (initial.Some? ==> StageAt(st', out.value) == initial.value)
              && OnlyBegun(st, st', out.value)
            else st' == st
  {
    var clean := if text.Some? then CleanMessage(text.value, lim.maxChars) else None;
    if !Terminal(InitialStage(origin, clean, initial)) {
      StartEffect(lim, st, sessionId, origin, clean, InitialStage(origin, clean, initial), candidates, now);
    }
  }

  ghost predicate NoItemFor(q: Queue, t: Token) {
    forall id {:trigger q.items[id]} :: id in q.items ==> q.items[id].token != t
  }

  /** A turn that is neither queued for playback nor playing has no item. */
  lemma EarlyStageHasNoItem(st: Store, q: Queue, t: Token)
    requires Agree(st, q) && Accepts(st, t) && StageAt(st, t) !in {PlaybackQueued, Stage.Playing}
    ensures NoItemFor(q, t)
  {
    forall id | id in q.items ensures q.items[id].token != t { assert ItemAgrees(st, q.items[id]); }
  }

  lemma DroppedAgree(st: Store, q: Queue, r: Queue)
    requires Agree(st, q) && OnlyStaleDropped(q, st, r) && forall id ::
               id in r.items ==> id in q.items && r.items[id].token == q.items[id].token
    ensures Agree(st, r)
  {
    forall id | id in r.items ensures ItemAgrees(st, r.items[id]) { assert ItemAgrees(st, q.items[id]); }
    forall a, b ensures OnlyItem(st, r, a, b) { assert OnlyItem(st, q, a, b); }
  }

  lemma CancelledItemsAgree(st: Store, q: Queue, r: Queue, sessionId: Id)
    requires Agree(st, q) && ItemsOnlyCancelled(q, r, sessionId) && NoneFor(st, sessionId)
    ensures Agree(st, r)
  {
    forall id | id in r.items ensures ItemAgrees(st, r.items[id]) { assert ItemAgrees(st, q.items[id]); }
    forall a, b ensures OnlyItem(st, r, a, b) { assert OnlyItem(st, q, a, b); }
  }

  /** The playback half of a cancellation only touches items of the cancelled session,
      none of which is accepted any more. */
  lemma StopAgree(b: Bounds, st: Store, q: Queue, sessionId: Id, through: Option<int>)
    requires QueueInv(q, b) && Agree(st, q) && NoneFor(st, sessionId) && Ordered(q)
    ensures Agree(st, CancelSession(q, b, sessionId, through).0)
  {
    CancelSessionKeeps(q, b, sessionId, through);
    CancelledItemsAgree(st, q, CancelSession(q, b, sessionId, through).0, sessionId);
  }

  // ---------------------------------------------------------- single operations

  lemma CreateKeeps(cfg: Config, used: set<Id>, w: World, clientId: string, context: Option<SessionContext>,
                    candidates: seq<Id>, now: int)
    requires WorldInv(cfg, used, w)
    ensures WorldInv(cfg, used, w.(store := CreateSession(w.store, cfg.lim, clientId, context, candidates, now).0))
  {
    var (st, out) := CreateSession(w.store, cfg.lim, clientId, context, candidates, now);
    CreateKeepsOk(cfg.lim, w.store, clientId, context, candidates, now);
    SomeSession(w.store, st, out);
    SameTurnsNarrow(w.store, st);
    NarrowKeepsAgree(w.store, st, w.queue);
    forall id ensures TurnsKnown(used, st, id) { assert TurnsKnown(used, w.store, id); }
  }

  /** A turn begins with an id never used before, so no item speaks for it. */
  lemma BeginKeeps(cfg: Config, used: set<Id>, w: World, sessionId: Id, origin: Origin, text: Option<string>,
                   initial: Option<Stage>, candidates: seq<Id>, now: int)
    requires WorldInv(cfg, used, w) && forall x :: x in candidates ==> x !in used
    ensures var (st, out) := BeginTurn(w.store, cfg.lim, sessionId, origin, text, initial, candidates, now);
            && WorldInv(cfg, used + Elements(candidates), w.(store := st))
            && (out.Ok? ==> Accepts(st, out.value) && (initial.Some? ==> StageAt(st, out.value) == initial.value))
  {
    var (st, out) := BeginTurn(w.store, cfg.lim, sessionId, origin, text, initial, candidates, now);
    BeginEffect(cfg.lim, w.store, sessionId, origin, text, initial, candidates, now);
    BeginOutline(w.store, cfg.lim, sessionId, origin, text, initial, candidates, now);
    BeginKeepsOk(cfg.lim, w.store, sessionId, origin, text, initial, candidates, now);
    forall id ensures ItemTurnKnown(used + Elements(candidates), w.queue, id) {
      assert ItemTurnKnown(used, w.queue, id);
    }
    forall id ensures TurnsKnown(used + Elements(candidates), st, id) { assert TurnsKnown(used, w.store, id); }
    if out.Ok? { BegunAgree(used, w.store, st, w.queue, out.value); }
  }

  function Elements(s: seq<Id>): set<Id> {
    set x | x in s
  }

  lemma BegunAgree(used: set<Id>, st: Store, st': Store, q: Queue, begun: Token)
    requires Agree(st, q) && (forall id {:trigger ItemTurnKnown(used, q, id)} :: ItemTurnKnown(used, q, id))
    requires begun.turnId !in used
    requires OnlyBegun(st, st', begun)
    ensures Agree(st', q)
  {
    forall id | id in q.items ensures q.items[id].token != begun { assert ItemTurnKnown(used, q, id); }
    forall id | id in q.items ensures ItemAgrees(st', q.items[id]) { assert ItemAgrees(st, q.items[id]); }
    forall a, b ensures OnlyItem(st', q, a, b) { assert OnlyItem(st, q, a, b); }
  }

  lemma MoveKeeps(cfg: Config, used: set<Id>, w: World, token: Token, stage: Stage, code: Option<string>, now: int)
    requires WorldInv(cfg, used, w)
    requires stage in {Transcribing, Thinking, Synthesizing, Stage.Completed, Stage.Failed}
    ensures WorldInv(cfg, used, w.(store := Transition(w.store, token, stage, code, now).0))
  {
    TransitionKeepsOk(cfg.lim, w.store, token, stage, code, now);
    TransitionIds(w.store, token, stage, code, now);
    MoveAgree(cfg.lim, w.store, w.queue, token, stage, code, now);
    StoreChange(cfg, used, w, Transition(w.store, token, stage, code, now).0);
  }

  lemma CommitKeeps(cfg: Config, used: set<Id>, w: World, token: Token, role: Role, text: string, now: int)
    requires WorldInv(cfg, used, w)
    ensures WorldInv(cfg, used, w.(store := CommitText(w.store, cfg.lim, token, role, text, now).0))
  {
    var st := CommitText(w.store, cfg.lim, token, role, text, now).0;
    CommitKeepsOk(cfg.lim, w.store, token, role, text, now);
    CommitIds(cfg.lim, w.store, token, role, text, now);
    CommitEffect(cfg.lim, w.store, token, role, text, now);
    NarrowKeepsAgree(w.store, st, w.queue);
    StoreChange(cfg, used, w, st);
  }

  lemma PollKeeps(cfg: Config, used: set<Id>, w: World, c: string)
    requires WorldInv(cfg, used, w)
    ensures WorldInv(cfg, used, w.(queue := NextCommand(w.queue, cfg.b, w.store, c).0))
  {
    var q := NextCommand(w.queue, cfg.b, w.store, c).0;
    NextCommandKeeps(w.queue, cfg.b, w.store, c);
    NextCommandDrops(w.queue, cfg.b, w.store, c);
    NextCommandEffect(w.queue, cfg.b, w.store, c);
    DroppedAgree(w.store, w.queue, q);
    QueueChange(cfg, used, w, q);
  }

  lemma ContextKeeps(cfg: Config, used: set<Id>, w: World, id: Id, changes: Changes, clear: bool, now: int)
    requires WorldInv(cfg, used, w)
    ensures WorldInv(cfg, used, w.(store := UpdateContext(w.store, id, changes, clear, now).0))
  {
    var st := UpdateContext(w.store, id, changes, clear, now).0;
    UpdateContextStep(cfg.lim, w.store, id, changes, clear, now);
    ContextNarrows(w.store, id, changes, clear, now);
    NarrowKeepsAgree(w.store, st, w.queue);
    StoreChange(cfg, used, w, st);
  }

  lemma ContextNarrows(st: Store, id: Id, changes: Changes, clear: bool, now: int)
    ensures NarrowsTo(st, UpdateContext(st, id, changes, clear, now).0)
  {
    SameTurnsNarrow(st, UpdateContext(st, id, changes, clear, now).0);
  }

  lemma PendingNarrows(lim: Limits, st: Store, id: Id, request: Option<string>, now: int)
    ensures NarrowsTo(st, SetPending(st, lim, id, request, now).0)
  {
    SameTurnsNarrow(st, SetPending(st, lim, id, request, now).0);
  }

  lemma PendingKeeps(cfg: Config, used: set<Id>, w: World, id: Id, request: Option<string>, now: int)
    requires WorldInv(cfg, used, w)
    ensures WorldInv(cfg, used, w.(store := SetPending(w.store, cfg.lim, id, request, now).0))
  {
    var st := SetPending(w.store, cfg.lim, id, request, now).0;
    SetPendingStep(cfg.lim, w.store, id, request, now);
    PendingNarrows(cfg.lim, w.store, id, request, now);
    NarrowKeepsAgree(w.store, st, w.queue);
    StoreChange(cfg, used, w, st);
  }

  lemma OrderedInv(cfg: Config, used: set<Id>, w: World)
    requires WorldInv(cfg, used, w)
    ensures Ordered(w.queue)
  {
    OrderIsStored(w.queue, cfg.b);
  }

  /** The playback half of a cancellation, once the store accepts nothing for the session. */
  lemma StopKeeps(cfg: Config, used: set<Id>, w: World, id: Id, through: Option<int>)
    requires WorldInv(cfg, used, w) && NoneFor(w.store, id) && Ordered(w.queue)
    ensures WorldInv(cfg, used, w.(queue := CancelSession(w.queue, cfg.b, id, through).0))
  {
    var q := CancelSession(w.queue, cfg.b, id, through).0;
    CancelSessionKeeps(w.queue, cfg.b, id, through);
    StopAgree(cfg.b, w.store, w.queue, id, through);
    QueueChange(cfg, used, w, q);
  }

  lemma CancelAllKeeps(cfg: Config, used: set<Id>, w: World, id: Id, now: int)
    requires WorldInv(cfg, used, w)
    ensures Ordered(w.queue) && WorldInv(cfg, used, CancelAll(cfg, w, id, now).0)
  {
    OrderedInv(cfg, used, w);
    var (st, out) := Cancel(w.store, id, None, now);
    if out.Ok? {
      CancelKeepsOk(cfg.lim, w.store, id, None, now);
      CancelIds(w.store, id, None, now);
      CancelNarrows(cfg.lim, w.store, id, now);
      NarrowKeepsAgree(w.store, st, w.queue);
      StoreChange(cfg, used, w, st);
      StopKeeps(cfg, used, w.(store := st), id, Some(out.value - 1));
    }
  }

  lemma CloseAllKeeps(cfg: Config, used: set<Id>, w: World, id: Id, now: int)
    requires WorldInv(cfg, used, w)
    ensures Ordered(w.queue) && WorldInv(cfg, used, CloseAll(cfg, w, id, now).0)
  {
    OrderedInv(cfg, used, w);
    var (st, out) := CloseSession(w.store, id, now);
    if out.Ok? {
      CloseKeepsOk(cfg.lim, w.store, id, now);
      CloseIds(w.store, id, now);
      CloseNarrows(w.store, id, now);
      NarrowKeepsAgree(w.store, st, w.queue);
      StoreChange(cfg, used, w, st);
      StopKeeps(cfg, used, w.(store := st), id, None);
    }
  }

  // ------------------------------------------------------ speaking a reply

  /** Queueing audio for a turn that is synthesizing, then marking it queued. */
  lemma QueuedAgree(lim: Limits, st: Store, q: Queue, item: Item, now: int)
    requires StoreOk(lim, st) && Agree(st, q) && Accepts(st, item.token) && StageAt(st, item.token) == Synthesizing
    requires item.state == Queued && item.id !in q.items
    ensures var (st', out) := Transition(st, item.token, PlaybackQueued, None, now);
            out == Ok(true) && Agree(st', AddItem(q, item))
  {
    MoveEffect(lim, st, item.token, PlaybackQueued, None, now);
    EarlyStageHasNoItem(st, q, item.token);
    AddedAgree(st, Transition(st, item.token, PlaybackQueued, None, now).0, q, item);
  }

  lemma AddedAgree(st: Store, st': Store, q: Queue, item: Item)
    requires Agree(st, q) && Moved(st, st', item.token, PlaybackQueued) && NoItemFor(q, item.token)
    requires item.state == Queued && item.id !in q.items
    ensures Agree(st', AddItem(q, item))
  {
    var q' := AddItem(q, item);
    forall id | id in q'.items ensures ItemAgrees(st', q'.items[id]) {
      if id != item.id { assert ItemAgrees(st, q.items[id]); }
    }
    forall a, b ensures OnlyItem(st', q', a, b) { assert OnlyItem(st, q, a, b); }
  }

  lemma KnownAccepted(cfg: Config, used: set<Id>, w: World, token: Token)
    requires WorldInv(cfg, used, w) && Accepts(w.store, token)
    ensures token.turnId in used
  {
    assert TurnsKnown(used, w.store, token.sessionId);
    var turns := w.store.sessions[token.sessionId].turns;
    assert turns[FindTurn(turns, token.turnId)] in turns;
  }

  /** The item is stored and the turn marked: the two agree again. */
  lemma SpokenKeeps(cfg: Config, used: set<Id>, w: World, item: Item, now: int)
    requires WorldInv(cfg, used, w) && Accepts(w.store, item.token) && StageAt(w.store, item.token) == Synthesizing
    requires item.state == Queued && item.id !in w.queue.items && QueueInv(AddItem(w.queue, item), cfg.b)
    ensures var (st, out) := Transition(w.store, item.token, PlaybackQueued, None, now);
            out == Ok(true) && WorldInv(cfg, used, w.(store := st, queue := AddItem(w.queue, item)))
  {
    var st := Transition(w.store, item.token, PlaybackQueued, None, now).0;
    var q := AddItem(w.queue, item);
    QueuedAgree(cfg.lim, w.store, w.queue, item, now);
    TransitionKeepsOk(cfg.lim, w.store, item.token, PlaybackQueued, None, now);
    TransitionIds(w.store, item.token, PlaybackQueued, None, now);
    KnownAccepted(cfg, used, w, item.token);
    forall id ensures ItemTurnKnown(used, q, id) { assert ItemTurnKnown(used, w.queue, id); }
    forall id ensures TurnsKnown(used, st, id) { assert TurnsKnown(used, w.store, id); }
  }

  lemma SameItemsKeep(cfg: Config, used: set<Id>, w: World, q: Queue)
    requires WorldInv(cfg, used, w) && QueueInv(q, cfg.b) && q.items == w.queue.items
    ensures WorldInv(cfg, used, w.(queue := q))
  {
    SameItemsAgree(w.store, w.queue, q);
    QueueChange(cfg, used, w, q);
  }

  lemma SameItemsAgree(st: Store, q: Queue, q': Queue)
    requires Agree(st, q) && q'.items == q.items
    ensures Agree(st, q')
  {
    forall a, b ensures OnlyItem(st, q', a, b) { assert OnlyItem(st, q, a, b); }
  }

  ghost predicate HasLiveItem(q: Queue, token: Token) {
    exists id {:trigger Live(q, id)} :: Live(q, id) && q.items[id].token == token
  }

  /** Speaking for a synthesizing turn either queues a live item and marks the turn,
      or leaves the session store alone. */
  lemma SpeakChatKeeps(cfg: Config, used: set<Id>, w: World, token: Token, voice: Voice, candidates: seq<Id>, now: int)
    requires WorldInv(cfg, used, w) && Accepts(w.store, token) && StageAt(w.store, token) == Synthesizing
    ensures var (w', spoke) := SpeakChat(cfg, w, token, voice, candidates, now);
            && WorldInv(cfg, used, w')
            && if spoke.Spoke? && spoke.playbackId.Some? then HasLiveItem(w'.queue, token) && spoke.ok
               else w'.store == w.store
  {
    if HasAudio(voice) {
      var audio := Artifacts.Bind(w.audio, cfg.caps, AfterSlash(voice.audioRef.value), OwnerOf(token), now).0;
      QueueSpeechKeeps(cfg, used, w.(audio := audio), token, OwnedRef(voice.audioRef.value, token), candidates, now);
    }
  }

  lemma QueueSpeechKeeps(cfg: Config, used: set<Id>, w: World, token: Token, ref: string, candidates: seq<Id>, now: int)
    requires WorldInv(cfg, used, w) && Accepts(w.store, token) && StageAt(w.store, token) == Synthesizing
    ensures var (w', spoke) := QueueSpeech(cfg, w, token, ref, candidates, now);
            && WorldInv(cfg, used, w')
            && if spoke.Spoke? && spoke.playbackId.Some? then HasLiveItem(w'.queue, token) && spoke.ok
               else w'.store == w.store
  {
    var client := w.store.sessions[token.sessionId].clientId;
    var (q, out) := Enqueue(w.queue, cfg.b, w.store, client, token, ref, "audio/wav", candidates);
    EnqueueKeeps(w.queue, cfg.b, w.store, client, token, ref, "audio/wav", candidates);
    EnqueueEffect(w.queue, cfg.b, w.store, client, token, ref, "audio/wav", candidates);
    if out.Ok? && out.value.Some? {
      var item := Item(out.value.value, client, token, ref, "audio/wav", Queued, None);
      SpokenKeeps(cfg, used, w, item, now);
      assert Live(AddItem(w.queue, item), item.id);
    } else {
      SameItemsKeep(cfg, used, w, q);
    }
  }

  /** The turn is over for the session, or the client still has its audio to deal with. */
  ghost predicate Settled(w: World, token: Token) {
    !Accepts(w.store, token) || HasLiveItem(w.queue, token)
  }

  lemma EndKeeps(cfg: Config, used: set<Id>, w: World, token: Token, stage: Stage, code: Option<string>, now: int)
    requires WorldInv(cfg, used, w) && stage in {Stage.Completed, Stage.Failed}
    ensures var (w', reply) := MoveIfCurrent(w, token, stage, code, now);
            && WorldInv(cfg, used, w')
            && (Accepts(w.store, token) && Legal(StageAt(w.store, token), stage) ==>
                  !Accepts(w'.store, token) && reply == Fine)
  {
    MoveKeeps(cfg, used, w, token, stage, code, now);
    if Accepts(w.store, token) && Legal(StageAt(w.store, token), stage) {
      MoveEffect(cfg.lim, w.store, token, stage, code, now);
    }
  }

  lemma ConcludeKeeps(cfg: Config, used: set<Id>, w: World, token: Token, voice: Voice, candidates: seq<Id>, now: int)
    requires WorldInv(cfg, used, w) && Accepts(w.store, token) && StageAt(w.store, token) == Synthesizing
    ensures var (w', reply) := Conclude(cfg, w, token, voice, candidates, now);
            WorldInv(cfg, used, w') && Settled(w', token) && reply == Fine
  {
    SpeakChatKeeps(cfg, used, w, token, voice, candidates, now);
    var (w1, spoke) := SpeakChat(cfg, w, token, voice, candidates, now);
    if spoke.SpokeRaised? {
      EndKeeps(cfg, used, w1, token, Stage.Failed, Some("tts_exception"), now);
    } else if spoke.playbackId.None? {
      EndKeeps(cfg, used, w1, token, Stage.Completed, None, now);
      EndKeeps(cfg, used, w1, token, Stage.Failed, Some("tts_failed"), now);
    }
  }

  lemma LeavesThinking(cfg: Config, used: set<Id>, w: World, token: Token, stage: Stage, now: int)
    requires WorldInv(cfg, used, w) && Accepts(w.store, token) && StageAt(w.store, token) == Thinking
    requires stage in {Synthesizing, Stage.Completed}
    ensures var (st, out) := Transition(w.store, token, stage, None, now);
            && out == Ok(true) && WorldInv(cfg, used, w.(store := st))
            && (Accepts(st, token) <==> stage == Synthesizing)
            && (stage == Synthesizing ==> StageAt(st, token) == Synthesizing)
  {
    MoveKeeps(cfg, used, w, token, stage, None, now);
    MoveEffect(cfg.lim, w.store, token, stage, None, now);
  }

  lemma AfterCommitSettles(cfg: Config, used: set<Id>, w: World, token: Token, speak: bool, voice: Voice,
                           candidates: seq<Id>, now: int)
    requires WorldInv(cfg, used, w) && Accepts(w.store, token) && StageAt(w.store, token) == Thinking
    ensures var (w', reply) := AfterCommit(cfg, w, token, speak, voice, candidates, now);
            WorldInv(cfg, used, w') && Settled(w', token) && reply == Fine
  {
    var stage := if speak then Synthesizing else Stage.Completed;
    LeavesThinking(cfg, used, w, token, stage, now);
    if speak {
      ConcludeKeeps(cfg, used, w.(store := Transition(w.store, token, stage, None, now).0), token, voice, candidates,
                    now);
    }
  }

  /** Finishing a turn that is thinking: it ends settled exactly when its text may be
      committed.  An empty or over-long reply raises before anything moves, and the turn
      stays open, thinking. */
  lemma FinishSettles(cfg: Config, used: set<Id>, w: World, token: Token, message: string, speak: bool, voice: Voice,
                      candidates: seq<Id>, now: int)
    requires WorldInv(cfg, used, w) && Accepts(w.store, token) && StageAt(w.store, token) == Thinking
    ensures var (w', reply) := Finish(cfg, w, token, message, speak, voice, candidates, now);
            && (Settled(w', token) <==> CleanMessage(message, cfg.lim.maxChars).Some?)
            && (Settled(w', token) ==> reply == Fine)
            && (!Settled(w', token) ==> w' == w && reply == HandlerRaised)
  {
    CommitEffect(cfg.lim, w.store, token, Assistant, message, now);
    if CleanMessage(message, cfg.lim.maxChars).None? {
      EarlyStageHasNoItem(w.store, w.queue, token);
    } else {
      CommitKeeps(cfg, used, w, token, Assistant, message, now);
      var w1 := w.(store := CommitText(w.store, cfg.lim, token, Assistant, message, now).0);
      AfterCommitSettles(cfg, used, w1, token, speak, voice, candidates, now);
    }
  }

  lemma AfterCommitKeeps(cfg: Config, used: set<Id>, w: World, token: Token, speak: bool, voice: Voice,
                         candidates: seq<Id>, now: int)
    requires WorldInv(cfg, used, w) && Accepts(w.store, token)
    ensures WorldInv(cfg, used, AfterCommit(cfg, w, token, speak, voice, candidates, now).0)
  {
    var stage := if speak then Synthesizing else Stage.Completed;
    MoveKeeps(cfg, used, w, token, stage, None, now);
    if speak && Transition(w.store, token, Synthesizing, None, now).1.Ok? {
      Synthesizes(cfg.lim, w.store, token, now);
      ConcludeKeeps(cfg, used, w.(store := Transition(w.store, token, Synthesizing, None, now).0), token, voice,
                    candidates, now);
    }
  }

  /** Finishing a turn at whatever stage keeps the invariant. */
  lemma FinishKeeps(cfg: Config, used: set<Id>, w: World, token: Token, message: string, speak: bool, voice: Voice,
                    candidates: seq<Id>, now: int)
    requires WorldInv(cfg, used, w)
    ensures WorldInv(cfg, used, Finish(cfg, w, token, message, speak, voice, candidates, now).0)
  {
    var (st, out) := CommitText(w.store, cfg.lim, token, Assistant, message, now);
    CommitEffect(cfg.lim, w.store, token, Assistant, message, now);
    if out == Ok(true) {
      CommitKeeps(cfg, used, w, token, Assistant, message, now);
      AfterCommitKeeps(cfg, used, w.(store := st), token, speak, voice, candidates, now);
    }
  }

  lemma Synthesizes(lim: Limits, st: Store, token: Token, now: int)
    requires StoreOk(lim, st) && Accepts(st, token) && Transition(st, token, Synthesizing, None, now).1.Ok?
    ensures var st' := Transition(st, token, Synthesizing, None, now).0;
            Accepts(st', token) && StageAt(st', token) == Synthesizing
  {
    if Legal(StageAt(st, token), Synthesizing) { MoveEffect(lim, st, token, Synthesizing, None, now); }
  }

  lemma SpokenPreviewKeeps(cfg: Config, used: set<Id>, w: World, token: Token, voice: Voice, candidates: seq<Id>,
                           now: int)
    requires WorldInv(cfg, used, w) && Accepts(w.store, token) && StageAt(w.store, token) == Synthesizing
    ensures var (w1, spoke) := SpeakChat(cfg, w, token, voice, candidates, now);
            var (w', reply) := PreviewOutcome(w1, token, spoke, now);
            WorldInv(cfg, used, w') && Settled(w', token) && (reply == Fine <==> HasLiveItem(w'.queue, token))
  {
    SpeakChatKeeps(cfg, used, w, token, voice, candidates, now);
    var (w1, spoke) := SpeakChat(cfg, w, token, voice, candidates, now);
    PreviewOutcomeKeeps(cfg, used, w1, token, spoke, now);
  }

  lemma PreviewKeeps(cfg: Config, used: set<Id>, w: World, sessionId: Id, voice: Voice, candidates: seq<Id>,
                     itemCandidates: seq<Id>, now: int)
    requires WorldInv(cfg, used, w) && forall x :: x in candidates ==> x !in used
    ensures var (w', reply) := Previewed(cfg, w, sessionId, voice, candidates, itemCandidates, now);
            && WorldInv(cfg, used + Elements(candidates), w')
            && var begun := BeginTurn(w.store, cfg.lim, sessionId, Text, None, Some(Synthesizing), candidates, now).1;
               begun.Ok? ==> Settled(w', begun.value) && (reply == Fine <==> HasLiveItem(w'.queue, begun.value))
  {
    var (st, begun) := BeginTurn(w.store, cfg.lim, sessionId, Text, None, Some(Synthesizing), candidates, now);
    BeginKeeps(cfg, used, w, sessionId, Text, None, Some(Synthesizing), candidates, now);
    if begun.Ok? {
      SpokenPreviewKeeps(cfg, used + Elements(candidates), w.(store := st), begun.value, voice, itemCandidates, now);
    }
  }

  lemma PreviewOutcomeKeeps(cfg: Config, used: set<Id>, w: World, token: Token, spoke: Spoke, now: int)
    requires WorldInv(cfg, used, w)
    requires if spoke.Spoke? && spoke.playbackId.Some? then HasLiveItem(w.queue, token) && spoke.ok
             else Accepts(w.store, token) && StageAt(w.store, token) == Synthesizing
    ensures var (w', reply) := PreviewOutcome(w, token, spoke, now);
            && WorldInv(cfg, used, w') && Settled(w', token)
            && (reply == Fine <==> HasLiveItem(w'.queue, token))
  {
    if spoke.Spoke? && spoke.playbackId.Some? {
    } else {
      EarlyStageHasNoItem(w.store, w.queue, token);
      EndKeeps(cfg, used, w, token, Stage.Failed, Some("tts_exception"), now);
      EndKeeps(cfg, used, w, token, Stage.Failed, Some("tts_failed"), now);
      EndKeeps(cfg, used, w, token, Stage.Failed, Some("playback_not_queued"), now);
    }
  }

  lemma HeardKeeps(cfg: Config, used: set<Id>, w: World, token: Token, message: string, now: int)
    requires WorldInv(cfg, used, w)
    ensures WorldInv(cfg, used, Heard(cfg, w, token, message, now).0)
  {
    CommitEffect(cfg.lim, w.store, token, User, message, now);
    CommitKeeps(cfg, used, w, token, User, message, now);
    var w1 := w.(store := CommitText(w.store, cfg.lim, token, User, message, now).0);
    MoveKeeps(cfg, used, w1, token, Thinking, None, now);
  }

  // ------------------------------------------------------- acknowledgements

  /** What an accepted acknowledgement does to the items: the acknowledged item takes
      the acknowledged state and is still there; old endings may be forgotten. */
  ghost predicate AckMoves(q: Queue, r: Queue, id: Id, state: PlaybackState) {
    && id in q.items && id in r.items && r.items[id].token == q.items[id].token && r.items[id].state == state
    && forall k {:trigger k in r.items} :: k in r.items && k != id ==> k in q.items && r.items[k] == q.items[k]
  }

  lemma AckItems(q: Queue, b: Bounds, st: Store, ack: Ack)
    requires QueueInv(q, b) && ack.playbackId in q.items
    ensures var (r, ok) := Acknowledge(q, b, st, ack);
            var before := q.items[ack.playbackId];
            && (!ok || before.state == ack.state ==> r == q)
            && (ok && before.state != ack.state ==>
                  && AckMoves(q, r, ack.playbackId, ack.state)
                  && match ack.state
                     case Started => before.state == Queued && Accepts(st, before.token)
                     case Completed => before.state == Started
                     case Failed => before.state == Queued || before.state == Started
                     case Cancelled => before.state == Queued || before.state == Started
                     case Queued => false)
  {
    var r := Acknowledge(q, b, st, ack).0;
    assert StoredOk(q, ack.playbackId);
    if r != q && !ack.state.Started? {
      var item := q.items[ack.playbackId];
      SetOverEffect(q, b, item, ack.state, ack.failure);
    }
  }

  /** The stage a turn moves to when its item moves from `before` to `state`. */
  lemma AckLegal(before: PlaybackState, state: PlaybackState, stage: Stage)
    requires Matches(before, stage) && AckStage(state).Some?
    requires match state
             case Started => before == Queued
             case Completed => before == Started
             case _ => before == Queued || before == Started
    ensures Legal(stage, AckStage(state).value)
  {
  }

  /** Once the item has moved and its turn has followed (or is not accepted), all agree. */
  lemma AckedAgree(st: Store, st': Store, q: Queue, r: Queue, id: Id, state: PlaybackState, stage: Stage)
    requires Agree(st, q) && AckMoves(q, r, id, state)
    requires Moved(st, st', q.items[id].token, stage)
    requires Accepts(st', q.items[id].token) ==> Matches(state, stage)
    ensures Agree(st', r)
  {
    var token := q.items[id].token;
    forall k | k in r.items ensures ItemAgrees(st', r.items[k]) {
      if k != id {
        assert ItemAgrees(st, q.items[k]) && OnlyItem(st, q, k, id);
      }
    }
    forall a, b ensures OnlyItem(st', r, a, b) { assert OnlyItem(st, q, a, b); }
  }

  lemma AckedNarrow(st: Store, q: Queue, r: Queue, id: Id, state: PlaybackState)
    requires Agree(st, q) && AckMoves(q, r, id, state)
    requires Accepts(st, q.items[id].token) ==>
               state == PlaybackState.Cancelled && q.items[id].state in {Queued, Started}
    ensures Agree(st, r)
  {
    forall k | k in r.items ensures ItemAgrees(st, r.items[k]) {
      assert ItemAgrees(st, q.items[k]) && ItemAgrees(st, q.items[id]);
    }
    forall a, b ensures OnlyItem(st, r, a, b) { assert OnlyItem(st, q, a, b); }
  }

  lemma AckedKnown(used: set<Id>, q: Queue, r: Queue, st: Store, st': Store, id: Id, state: PlaybackState)
    requires Known(used, st, q) && AckMoves(q, r, id, state) && KeepsTurnIds(st, st')
    ensures Known(used, st', r)
  {
    forall k ensures ItemTurnKnown(used, r, k) { assert ItemTurnKnown(used, q, k); }
    forall k ensures TurnsKnown(used, st', k) { assert TurnsKnown(used, st, k); }
  }

  /** The turn of an acknowledged item follows it: never an illegal transition. */
  lemma FollowItem(cfg: Config, used: set<Id>, w: World, r: Queue, id: Id, state: PlaybackState, code: Option<string>,
                   now: int)
    requires WorldInv(cfg, used, w) && QueueInv(r, cfg.b) && AckMoves(w.queue, r, id, state) && AckStage(state).Some?
    requires match state
             case Started => w.queue.items[id].state == Queued
             case Completed => w.queue.items[id].state == Started
             case _ => w.queue.items[id].state == Queued || w.queue.items[id].state == Started
    ensures var (w', reply) := MoveIfCurrent(w.(queue := r), r.items[id].token, AckStage(state).value, code, now);
            WorldInv(cfg, used, w') && reply == Fine
  {
    var token := w.queue.items[id].token;
    var stage := AckStage(state).value;
    if Accepts(w.store, token) {
      assert ItemAgrees(w.store, w.queue.items[id]);
      AckLegal(w.queue.items[id].state, state, StageAt(w.store, token));
      MoveEffect(cfg.lim, w.store, token, stage, code, now);
      TransitionIds(w.store, token, stage, code, now);
      var st := Transition(w.store, token, stage, code, now).0;
      AckedAgree(w.store, st, w.queue, r, id, state, stage);
      AckedKnown(used, w.queue, r, w.store, st, id, state);
    } else {
      AckedNarrow(w.store, w.queue, r, id, state);
      AckedKnown(used, w.queue, r, w.store, w.store, id, state);
    }
  }

  /** The acknowledgement handler never looks up a missing item, never attempts an
      illegal transition, and keeps queue and store in agreement. */
  lemma AckKeeps(cfg: Config, used: set<Id>, w: World, ack: Ack, now: int)
    requires WorldInv(cfg, used, w)
    ensures var (w', reply) := Acknowledged(cfg, w, ack, now);
            WorldInv(cfg, used, w') && reply != HandlerRaised
  {
    if ack.playbackId in w.queue.items {
      var (r, ok) := Acknowledge(w.queue, cfg.b, w.store, ack);
      AckItems(w.queue, cfg.b, w.store, ack);
      var before := w.queue.items[ack.playbackId].state;
      if ok && before != ack.state {
        AcknowledgeKeeps(w.queue, cfg.b, w.store, ack);
        if AckStage(ack.state).Some? {
          FollowItem(cfg, used, w, r, ack.playbackId, ack.state, AckCode(ack), now);
        } else {
          AckedNarrow(w.store, w.queue, r, ack.playbackId, ack.state);
          AckedKnown(used, w.queue, r, w.store, w.store, ack.playbackId, ack.state);
        }
      }
    }
  }

  // ----------------------------------------------------------- runs of requests

  lemma HandleKeeps(cfg: Config, used: set<Id>, w: World, r: Request, now: int)
    requires WorldInv(cfg, used, w) && forall x :: x in TurnCandidates(r) ==> x !in used
    ensures Ordered(w.queue)
    ensures WorldInv(cfg, used + Elements(TurnCandidates(r)), Handle(cfg, w, r, now).0)
  {
    OrderedInv(cfg, used, w);
    if r.BeginChat? || r.BeginCapture? || r.Preview? {
      BeginRequestKeeps(cfg, used, w, r, now);
    } else {
      assert used + Elements(TurnCandidates(r)) == used;
      match r {
        case NewSession(clientId, context, candidates) => CreateKeeps(cfg, used, w, clientId, context, candidates, now);
        case Transcribed(token, message) => HeardKeeps(cfg, used, w, token, message, now);
        case Fail(token, code) => EndKeeps(cfg, used, w, token, Stage.Failed, Some(code), now);
        case Confirmed(token) => EndKeeps(cfg, used, w, token, Stage.Completed, None, now);
        case FinishTurn(token, message, speak, voice, candidates) =>
          FinishKeeps(cfg, used, w, token, message, speak, voice, candidates, now);
        case NextPlayback(clientId) => PollKeeps(cfg, used, w, clientId);
        case PlaybackAck(ack) => AckKeeps(cfg, used, w, ack, now);
        case CancelRequest(id) => CancelAllKeeps(cfg, used, w, id, now);
        case CloseRequest(id) => CloseAllKeeps(cfg, used, w, id, now);
        case ContextRequest(id, changes, clear) => ContextKeeps(cfg, used, w, id, changes, clear, now);
        case PendingRequest(id, request) => PendingKeeps(cfg, used, w, id, request, now);
        case StoreAudio(_, _, _) =>
        case FetchAudio(_, _) =>
      }
    }
  }

  lemma BeginRequestKeeps(cfg: Config, used: set<Id>, w: World, r: Request, now: int)
    requires WorldInv(cfg, used, w) && Ordered(w.queue) && (forall x :: x in TurnCandidates(r) ==> x !in used)
    requires r.BeginChat? || r.BeginCapture? || r.Preview?
    ensures WorldInv(cfg, used + Elements(TurnCandidates(r)), Handle(cfg, w, r, now).0)
  {
    match r {
      case BeginChat(id, origin, message, candidates) =>
        BeginKeeps(cfg, used, w, id, origin, Some(message), None, candidates, now);
      case BeginCapture(id, candidates) =>
        BeginKeeps(cfg, used, w, id, Origin.Voice, None, Some(Transcribing), candidates, now);
      case Preview(id, voice, candidates, itemCandidates) =>
        PreviewKeeps(cfg, used, w, id, voice, candidates, itemCandidates, now);
    }
  }

  lemma EmptyWorld(cfg: Config)
    requires ValidLimits(cfg.lim) && ValidBounds(cfg.b)
    ensures WorldInv(cfg, {}, World(EMPTY_STORE, EMPTY_QUEUE, []))
  {
    InitInv(cfg);
    forall a, b ensures OnlyItem(EMPTY_STORE, EMPTY_QUEUE, a, b) {}
  }

  datatype Served = Served(request: Request, now: int)

  /** The id factory never repeats a turn id. */
  ghost predicate FreshTurns(used: set<Id>, rs: seq<Served>)
    decreases |rs|
  {
    rs == [] ||
    ((forall x :: x in TurnCandidates(rs[0].request) ==> x !in used)
     && FreshTurns(used + Elements(TurnCandidates(rs[0].request)), rs[1..]))
  }

  /** The world after a sequence of requests. */
  ghost function Serve(cfg: Config, used: set<Id>, w: World, rs: seq<Served>): (w': World)
    requires WorldInv(cfg, used, w) && FreshTurns(used, rs)
    decreases |rs|
  {
    if rs == [] then w
    else
      HandleKeeps(cfg, used, w, rs[0].request, rs[0].now);
      Serve(cfg, used + Elements(TurnCandidates(rs[0].request)), Handle(cfg, w, rs[0].request, rs[0].now).0, rs[1..])
  }

  /** After any run of requests, every item of accepted work matches its turn's stage
      (queued, playing, or already over with the turn), and an acknowledgement raises
      nothing and is refused or followed by the turn. */
  lemma {:induction false} AgreementForever(cfg: Config, used: set<Id>, w: World, rs: seq<Served>, id: Id, ack: Ack,
                                            now: int)
    requires WorldInv(cfg, used, w) && FreshTurns(used, rs)
    ensures var end := Serve(cfg, used, w, rs);
            && (id in end.queue.items && Accepts(end.store, end.queue.items[id].token) ==>
                  var stage := StageAt(end.store, end.queue.items[id].token);
                  match end.queue.items[id].state
                  case Queued => stage == PlaybackQueued
                  case Started => stage == Stage.Playing
                  case Cancelled => stage == PlaybackQueued || stage == Stage.Playing
                  case Completed => false
                  case Failed => false)
            && Acknowledged(cfg, end, ack, now).1 != HandlerRaised
    decreases |rs|
  {
    if rs == [] {
      AckKeeps(cfg, used, w, ack, now);
      if id in w.queue.items { assert ItemAgrees(w.store, w.queue.items[id]); }
    } else {
      HandleKeeps(cfg, used, w, rs[0].request, rs[0].now);
      AgreementForever(cfg, used + Elements(TurnCandidates(rs[0].request)),
                       Handle(cfg, w, rs[0].request, rs[0].now).0, rs[1..], id, ack, now);
    }
  }

  /** The same from the start: no session, no playback, no turn id handed out. */
  ghost function ServeFromStart(cfg: Config, rs: seq<Served>): World
    requires ValidLimits(cfg.lim) && ValidBounds(cfg.b) && FreshTurns({}, rs)
  {
    EmptyWorld(cfg);
    Serve(cfg, {}, World(EMPTY_STORE, EMPTY_QUEUE, []), rs)
  }

  lemma AgreementFromStart(cfg: Config, rs: seq<Served>, id: Id, ack: Ack, now: int)
    requires ValidLimits(cfg.lim) && ValidBounds(cfg.b) && FreshTurns({}, rs)
    ensures var end := ServeFromStart(cfg, rs);
            && (id in end.queue.items && Accepts(end.store, end.queue.items[id].token) ==>
                  Matches(end.queue.items[id].state, StageAt(end.store, end.queue.items[id].token)))
            && Acknowledged(cfg, end, ack, now).1 != HandlerRaised
  {
    EmptyWorld(cfg);
    AgreementForever(cfg, {}, World(EMPTY_STORE, EMPTY_QUEUE, []), rs, id, ack, now);
  }
}
