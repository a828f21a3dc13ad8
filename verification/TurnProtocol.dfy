/** The session store and the playback queue running together.  Each
    lock-protected operation is one atomic step and steps of different requests
    interleave freely; cancelling is therefore two steps, and `owed` holds the
    playback half of every cancellation whose first half has happened. */
module TurnProtocol {
  import opened Collections
  import opened SessionContexts
  import opened Sessions
  import opened Playback
  import Artifacts

  datatype Config = Config(lim: Limits, b: Bounds, caps: Artifacts.Caps)

  datatype Owed = Owed(sessionId: Id, through: Option<int>)

  /** What a client could have observed, plus the STOPs issued to it. */
  datatype Event =
    | Enqueued(client: string, id: Id)
    | Played(client: string, id: Id)
    | Ended(client: string, id: Id)
    | StopIssued(client: string, id: Id)
    | StopDelivered(client: string, id: Id)

  datatype System = System(
    store: Store,
    queue: Queue,
    owed: multiset<Owed>,
    sessionIds: set<Id>,
    turnIds: set<Id>,
    itemIds: set<Id>,
    log: seq<Event>)

  const INIT := System(EMPTY_STORE, EMPTY_QUEUE, multiset{}, {}, {}, {}, [])

  datatype Op =
    | Create(clientId: string, context: Option<SessionContext>, candidates: seq<Id>)
    | Begin(sessionId: Id, origin: Origin, userText: Option<string>, initial: Option<Stage>, candidates: seq<Id>)
    | Move(token: Token, stage: Stage, failure: Option<string>)
    | End(token: Token, stage: Stage, failure: Option<string>)
    | Commit(token: Token, role: Role, text: string)
    | CancelTurn(sessionId: Id)
    | Close(sessionId: Id)
    | StopPlayback(owed: Owed)
    | Context(sessionId: Id, changes: Changes, clearHistory: bool)
    | Pending(sessionId: Id, request: Option<string>)
    | Speak(clientId: string, token: Token, audioRef: string, contentType: string, candidates: seq<Id>)
    | Poll(clientId: string)
    | Acked(ack: Ack)

  datatype Answer =
    | Created(session: Outcome<Id, Error>)
    | Begun(token: Outcome<Token, Error>)
    | Moved(moved: Outcome<bool, Error>)
    | Generation(generation: Outcome<nat, Error>)
    | Done(done: Outcome<(), Error>)
    | Stopped(cancelled: seq<Item>)
    | Spoken(item: Outcome<Option<Id>, Fault>)
    | Polled(command: Option<Command>)
    | AckResult(accepted: bool)

  function StopEvents(q: Queue, cancelled: seq<Item>): seq<Event> {
    if cancelled == [] then []
    else
      var item := cancelled[|cancelled| - 1];
      StopEvents(q, cancelled[..|cancelled| - 1])
      + if IsActive(q, item.clientId, item.id) then [StopIssued(item.clientId, item.id)] else []
  }

  /** One atomic step.  `StopPlayback` is only enabled for an owed cancellation. */
  function Step(cfg: Config, s: System, op: Op, now: int): (System, Answer)
    requires SystemInv(cfg, s)
  {
    match op
    case Create(clientId, context, candidates) =>
      var (st, out) := CreateSession(s.store, cfg.lim, clientId, context, candidates, now);
      (if out.Ok? then s.(store := st, sessionIds := s.sessionIds + {out.value}) else s.(store := st), Created(out))
    case Begin(sessionId, origin, text, initial, candidates) =>
      var (st, out) := BeginTurn(s.store, cfg.lim, sessionId, origin, text, initial, candidates, now);
      (if out.Ok? then s.(store := st, turnIds := s.turnIds + {out.value.turnId}) else s.(store := st), Begun(out))
    case Move(token, stage, failure) =>
      var (st, out) := Transition(s.store, token, stage, failure, now);
      (s.(store := st), Moved(out))
    case End(token, stage, failure) =>
      var (st, out) := Terminalize(s.store, token, stage, failure, now);
      (s.(store := st), Moved(out))
    case Commit(token, role, text) =>
      var (st, out) := CommitText(s.store, cfg.lim, token, role, text, now);
      (s.(store := st), Moved(out))
    case CancelTurn(sessionId) =>
      var (st, out) := Cancel(s.store, sessionId, None, now);
      (if out.Ok? then Owe(s, st, Owed(sessionId, Some(out.value - 1))) else s, Generation(out))
    case Close(sessionId) =>
      var (st, out) := CloseSession(s.store, sessionId, now);
      (if out.Ok? then Owe(s, st, Owed(sessionId, None)) else s, Done(out))
    case StopPlayback(owed) =>
      if owed !in s.owed then (s, Stopped([]))
      else
        OrderIsStored(s.queue, cfg.b);
        var (q, cancelled) := CancelSession(s.queue, cfg.b, owed.sessionId, owed.through);
        (s.(queue := q, owed := s.owed - multiset{owed}, log := s.log + StopEvents(s.queue, cancelled)),
         Stopped(cancelled))
    case Context(sessionId, changes, clearHistory) =>
      var (st, out) := UpdateContext(s.store, sessionId, changes, clearHistory, now);
      (s.(store := st), Done(out))
    case Pending(sessionId, text) =>
      var (st, out) := SetPending(s.store, cfg.lim, sessionId, text, now);
      (s.(store := st), Done(out))
    case Speak(clientId, token, audioRef, contentType, candidates) =>
      var (q, out) := Enqueue(s.queue, cfg.b, s.store, clientId, token, audioRef, contentType, candidates);
      if out.Ok? && out.value.Some? then
        (s.(queue := q, itemIds := s.itemIds + {out.value.value},
            log := s.log + [Enqueued(clientId, out.value.value)]), Spoken(out))
      else (s.(queue := q), Spoken(out))
    case Poll(clientId) =>
      var (q, out) := NextCommand(s.queue, cfg.b, s.store, clientId);
      (if out.None? then s.(queue := q) else s.(queue := q, log := s.log + [PollEvent(clientId, out.value)]),
       Polled(out))
    case Acked(ack) =>
      var (q, ok) := Acknowledge(s.queue, cfg.b, s.store, ack);
      (if ack.clientId in s.queue.active && ack.clientId !in q.active
       then s.(queue := q, log := s.log + [Ended(ack.clientId, ack.playbackId)])
       else s.(queue := q), AckResult(ok))
  }

  function Owe(s: System, st: Store, owed: Owed): System {
    s.(store := st, owed := s.owed + multiset{owed})
  }

  function PollEvent(c: string, command: Command): Event {
    if command.kind.Play? then Played(c, command.playbackId) else StopDelivered(c, command.playbackId)
  }

  lemma OrderIsStored(q: Queue, b: Bounds)
    requires QueueInv(q, b)
    ensures Ordered(q)
  {
    forall id | id in q.order ensures id in q.items { assert StoredOk(q, id); }
  }

  // ------------------------------------------------- the client's view of it

  datatype Phase = Idle | Playing(id: Id) | Stopping(id: Id)

  /** The protocol one client goes through; `None` marks a violation. */
  function NextPhase(p: Phase, e: Event): Option<Phase> {
    match e
    case Enqueued(_, _) => Some(p)
    case Played(_, id) => if p.Idle? then Some(Phase.Playing(id)) else None
    case Ended(_, id) => if p == Phase.Playing(id) then Some(Idle) else None
    case StopIssued(_, id) => if p == Phase.Playing(id) then Some(Stopping(id)) else None
    case StopDelivered(_, id) => if p == Stopping(id) then Some(Idle) else None
  }

  function PhaseAfter(log: seq<Event>, c: string): Option<Phase> {
    if log == [] then Some(Idle)
    else
      var before := PhaseAfter(log[..|log| - 1], c);
      var e := log[|log| - 1];
      if before.None? || e.client != c then before else NextPhase(before.value, e)
  }

  function PhaseOf(q: Queue, c: string): Phase {
    if c in q.active then Phase.Playing(q.active[c])
    else if CommandsOf(q, c) != [] then Stopping(CommandsOf(q, c)[0].playbackId)
    else Idle
  }

  /** The playbacks handed in for a client, oldest first. */
  function EnqueueOrder(log: seq<Event>, c: string): seq<Id> {
    if log == [] then []
    else
      var e := log[|log| - 1];
      var before := EnqueueOrder(log[..|log| - 1], c);
      if e.Enqueued? && e.client == c then before + [e.id] else before
  }

  /** The playbacks the client was told to play, in order. */
  function PlayOrder(log: seq<Event>, c: string): seq<Id> {
    if log == [] then []
    else
      var e := log[|log| - 1];
      var before := PlayOrder(log[..|log| - 1], c);
      if e.Played? && e.client == c then before + [e.id] else before
  }

  // --------------------------------------------------------------- invariant

  ghost predicate SessionKnown(s: System, id: Id) {
    id in s.store.sessions ==> id in s.sessionIds && TurnIds(s.store.sessions[id].turns) <= s.turnIds
  }

  /** Work of generation `g` on a stored session is not newer than the session,
      and older than it once the session is closed. */
  ghost predicate NotAhead(st: Store, sessionId: Id, g: int) {
    sessionId in st.sessions ==>
      && g <= st.sessions[sessionId].generation
      && (!st.sessions[sessionId].active ==> g < st.sessions[sessionId].generation)
  }

  ghost predicate ItemKnown(s: System, id: Id) {
    id in s.queue.items ==>
      var t := s.queue.items[id].token;
      && id in s.itemIds && t.sessionId in s.sessionIds && t.turnId in s.turnIds
      && NotAhead(s.store, t.sessionId, t.generation)
  }

  ghost predicate Below(st: Store, sessionId: Id, g: int) {
    sessionId in st.sessions ==> g < st.sessions[sessionId].generation
  }

  /** The tombstone of a stored session is strictly below its generation. */
  ghost predicate TombstoneLow(s: System, t: Tombstone) {
    t in s.queue.tombstones ==> t.sessionId in s.sessionIds && Below(s.store, t.sessionId, t.through)
  }

  ghost predicate OwedOk(s: System, o: Owed) {
    o in s.owed ==>
      && o.sessionId in s.sessionIds
      && if o.through.Some? then Below(s.store, o.sessionId, o.through.value)
         else o.sessionId in s.store.sessions ==> !s.store.sessions[o.sessionId].active
  }

  ghost predicate ClientLogOk(s: System, c: string) {
    && PhaseAfter(s.log, c) == Some(PhaseOf(s.queue, c))
    && Subseq(PlayOrder(s.log, c) + QueueOf(s.queue, c), EnqueueOrder(s.log, c))
    && Distinct(EnqueueOrder(s.log, c))
    && (forall id :: id in EnqueueOrder(s.log, c) ==> id in s.itemIds)
  }

  ghost predicate SystemInv(cfg: Config, s: System) {
    && StoreOk(cfg.lim, s.store)
    && QueueInv(s.queue, cfg.b)
    && (forall id {:trigger SessionKnown(s, id)} :: SessionKnown(s, id))
    && (forall id {:trigger ItemKnown(s, id)} :: ItemKnown(s, id))
    && (forall t {:trigger TombstoneLow(s, t)} :: TombstoneLow(s, t))
    && (forall o {:trigger OwedOk(s, o)} :: OwedOk(s, o))
    && (forall c {:trigger ClientLogOk(s, c)} :: ClientLogOk(s, c))
  }

  /** The id factory hands out a value it never handed out before. */
  ghost predicate FreshIds(s: System, op: Op) {
    match op
    case Create(_, _, candidates) => forall x :: x in candidates ==> x !in s.sessionIds
    case Begin(_, _, _, _, candidates) => forall x :: x in candidates ==> x !in s.turnIds
    case Speak(_, _, _, _, candidates) => forall x :: x in candidates ==> x !in s.itemIds
    case _ => true
  }
}
