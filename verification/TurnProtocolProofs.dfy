/** Every step keeps the system invariant, so it holds in every reachable state. */
module TurnProtocolProofs {
  import opened Collections
  import opened SessionContexts
  import opened Sessions
  import opened SessionSteps
  import opened Playback
  import opened PlaybackInvariant
  import opened PlaybackEffects
  import opened TurnProtocol

  lemma InitInv(cfg: Config)
    requires ValidLimits(cfg.lim) && ValidBounds(cfg.b)
    ensures SystemInv(cfg, INIT)
  {
    forall id ensures StoredOk(EMPTY_QUEUE, id) {}
    forall id ensures PlacedOk(EMPTY_QUEUE, id) {}
    forall c, id ensures EntryOk(EMPTY_QUEUE, {}, c, id) {}
    forall c ensures ClientOk(EMPTY_QUEUE, cfg.b, c) {}
    forall id ensures SessionKnown(INIT, id) && ItemKnown(INIT, id) {}
    forall t ensures TombstoneLow(INIT, t) {}
    forall o ensures OwedOk(INIT, o) {}
    forall c ensures ClientLogOk(INIT, c) {}
  }

  // ------------------------------------------------------ steps of the store

  /** A step that only touches stored sessions, possibly adding one unseen before. */
  ghost predicate StoreMove(cfg: Config, s: System, s': System) {
    && StoreOk(cfg.lim, s'.store)
    && s'.queue == s.queue && s'.log == s.log && s'.itemIds == s.itemIds
    && s.sessionIds <= s'.sessionIds && s.turnIds <= s'.turnIds
    && forall id {:trigger id in s'.store.sessions} :: id in s'.store.sessions ==>
         || (id in s.store.sessions && SessionStep(s.store.sessions[id], s'.store.sessions[id]))
         || (id !in s.sessionIds && id in s'.sessionIds && s'.store.sessions[id].turns == [])
  }

  lemma StoreMoveKeeps(cfg: Config, s: System, s': System)
    requires SystemInv(cfg, s) && StoreMove(cfg, s, s')
    requires forall id {:trigger SessionKnown(s', id)} :: SessionKnown(s', id)
    requires forall o {:trigger OwedOk(s', o)} :: o !in s.owed ==> OwedOk(s', o)
    requires s.owed <= s'.owed
    ensures SystemInv(cfg, s')
  {
    forall id ensures ItemKnown(s', id) { assert ItemKnown(s, id); }
    forall t ensures TombstoneLow(s', t) { assert TombstoneLow(s, t); }
    forall o ensures OwedOk(s', o) { assert OwedOk(s, o); }
    forall c ensures ClientLogOk(s', c) { assert ClientLogOk(s, c); }
  }

  /** No turn is added and nothing new is owed. */
  lemma QuietStoreMove(cfg: Config, s: System, st: Store)
    requires SystemInv(cfg, s)
    requires StoreStep(s.store, st) && StoreOk(cfg.lim, st) && KeepsTurnIds(s.store, st)
    ensures SystemInv(cfg, s.(store := st))
  {
    var s' := s.(store := st);
    forall id ensures SessionKnown(s', id) { assert SessionKnown(s, id); }
    forall o | o !in s.owed ensures OwedOk(s', o) {}
    StoreMoveKeeps(cfg, s, s');
  }

  lemma OwingStoreMove(cfg: Config, s: System, st: Store, owed: Owed)
    requires SystemInv(cfg, s)
    requires StoreStep(s.store, st) && StoreOk(cfg.lim, st) && KeepsTurnIds(s.store, st)
    requires OwedOk(Owe(s, st, owed), owed)
    ensures SystemInv(cfg, Owe(s, st, owed))
  {
    var s' := s.(store := st, owed := s.owed + multiset{owed});
    forall id ensures SessionKnown(s', id) { assert SessionKnown(s, id); }
    forall o | o !in s.owed ensures OwedOk(s', o) {}
    StoreMoveKeeps(cfg, s, s');
  }

  lemma CreateInv(cfg: Config, s: System, op: Op, now: int)
    requires SystemInv(cfg, s) && op.Create? && FreshIds(s, op)
    ensures SystemInv(cfg, Step(cfg, s, op, now).0)
  {
    CreateKeepsOk(cfg.lim, s.store, op.clientId, op.context, op.candidates, now);
    CreateStepIs(cfg, s, op, now);
    var (st, out) := CreateSession(s.store, cfg.lim, op.clientId, op.context, op.candidates, now);
    CreatedMove(cfg, s, st, out);
  }

  lemma CreateStepIs(cfg: Config, s: System, op: Op, now: int)
    requires SystemInv(cfg, s) && op.Create?
    ensures var (st, out) := CreateSession(s.store, cfg.lim, op.clientId, op.context, op.candidates, now);
            Step(cfg, s, op, now).0 == if out.Ok? then s.(store := st, sessionIds := s.sessionIds + {out.value})
              else s.(store := st)
  {
  }

  lemma CreatedMove(cfg: Config, s: System, st: Store, out: Outcome<Id, Error>)
    requires SystemInv(cfg, s) && StoreOk(cfg.lim, st)
    requires out.Ok? ==> out.value !in s.sessionIds && out.value in st.sessions && st.sessions[out.value].turns == []
    requires forall id ::
               id in st.sessions && out != Ok(id) ==> id in s.store.sessions && st.sessions[id] == s.store.sessions[id]
    ensures SystemInv(cfg,
                      if out.Ok? then s.(store := st, sessionIds := s.sessionIds + {out.value}) else s.(store := st))
  {
    var s' := if out.Ok? then s.(store := st, sessionIds := s.sessionIds + {out.value}) else s.(store := st);
    forall id ensures SessionKnown(s', id) { assert SessionKnown(s, id); }
    forall id | id in s.store.sessions ensures SessionStep(s.store.sessions[id], s.store.sessions[id]) {
      SameStep(s.store.sessions[id]);
    }
    StoreMoveKeeps(cfg, s, s');
  }

  lemma BeginInv(cfg: Config, s: System, op: Op, now: int)
    requires SystemInv(cfg, s) && op.Begin? && FreshIds(s, op)
    ensures SystemInv(cfg, Step(cfg, s, op, now).0)
  {
    var (st, out) := BeginTurn(s.store, cfg.lim, op.sessionId, op.origin, op.userText, op.initial, op.candidates, now);
    BeginOutline(s.store, cfg.lim, op.sessionId, op.origin, op.userText, op.initial, op.candidates, now);
    if out.Ok? {
      BeginStep(s.store, cfg.lim, op.sessionId, op.origin, op.userText, op.initial, op.candidates, now);
      BeginKeepsOk(cfg.lim, s.store, op.sessionId, op.origin, op.userText, op.initial, op.candidates, now);
      GrowingStoreMove(cfg, s, st, op.sessionId, out.value.turnId);
    }
  }

  lemma GrowingStoreMove(cfg: Config, s: System, st: Store, sessionId: Id, turnId: Id)
    requires SystemInv(cfg, s)
    requires StoreStep(s.store, st) && StoreOk(cfg.lim, st)
    requires sessionId in s.store.sessions && sessionId in st.sessions
             && st == Put(s.store, sessionId, st.sessions[sessionId])
    requires TurnIds(st.sessions[sessionId].turns) <= TurnIds(s.store.sessions[sessionId].turns) + {turnId}
    ensures SystemInv(cfg, s.(store := st, turnIds := s.turnIds + {turnId}))
  {
    var s' := s.(store := st, turnIds := s.turnIds + {turnId});
    forall id ensures SessionKnown(s', id) { assert SessionKnown(s, id); }
    forall o | o !in s.owed ensures OwedOk(s', o) {}
    StoreMoveKeeps(cfg, s, s');
  }

  lemma TokenOpInv(cfg: Config, s: System, op: Op, now: int)
    requires SystemInv(cfg, s) && (op.Move? || op.End? || op.Commit?)
    ensures SystemInv(cfg, Step(cfg, s, op, now).0)
  {
    match op {
      case Move(token, stage, failure) =>
        TransitionStep(cfg.lim, s.store, token, stage, failure, now);
        TransitionKeepsOk(cfg.lim, s.store, token, stage, failure, now);
        TransitionIds(s.store, token, stage, failure, now);
        QuietStoreMove(cfg, s, Transition(s.store, token, stage, failure, now).0);
      case End(token, stage, failure) =>
        TerminalizeStep(cfg.lim, s.store, token, stage, failure, now);
        TerminalizeIds(s.store, token, stage, failure, now);
        QuietStoreMove(cfg, s, Terminalize(s.store, token, stage, failure, now).0);
      case Commit(token, role, text) =>
        CommitStep(cfg.lim, s.store, token, role, text, now);
        CommitKeepsOk(cfg.lim, s.store, token, role, text, now);
        CommitIds(cfg.lim, s.store, token, role, text, now);
        QuietStoreMove(cfg, s, CommitText(s.store, cfg.lim, token, role, text, now).0);
    }
  }

  lemma CancelOutline(st: Store, id: Id, now: int)
    ensures var (st', out) := Cancel(st, id, None, now);
            if id in st.sessions
            then out == Ok(st.sessions[id].generation + 1) && st' == Put(st, id, st'.sessions[id])
                 && st'.sessions[id].generation == st.sessions[id].generation + 1
            else out.Raised?
  {
  }

  lemma CancelStepIs(cfg: Config, s: System, id: Id, now: int)
    requires SystemInv(cfg, s)
    ensures var (st, out) := Cancel(s.store, id, None, now);
            Step(cfg, s, CancelTurn(id), now).0 == if out.Ok? then Owe(s, st, Owed(id, Some(out.value - 1))) else s
  {
  }

  lemma CancelOwes(s: System, id: Id, now: int)
    requires SessionKnown(s, id) && id in s.store.sessions
    ensures var (st, out) := Cancel(s.store, id, None, now);
            out.Ok? && var owed := Owed(id, Some(out.value - 1)); OwedOk(Owe(s, st, owed), owed)
  {
    CancelOutline(s.store, id, now);
  }

  lemma CancelTurnInv(cfg: Config, s: System, id: Id, now: int)
    requires SystemInv(cfg, s)
    ensures SystemInv(cfg, Step(cfg, s, CancelTurn(id), now).0)
  {
    CancelStepIs(cfg, s, id, now);
    var (st, out) := Cancel(s.store, id, None, now);
    if out.Ok? {
      assert SessionKnown(s, id);
      CancelOwes(s, id, now);
      CancelStep(cfg.lim, s.store, id, None, now);
      CancelKeepsOk(cfg.lim, s.store, id, None, now);
      CancelIds(s.store, id, None, now);
      OwingStoreMove(cfg, s, st, Owed(id, Some(out.value - 1)));
    }
  }

  lemma CloseInv(cfg: Config, s: System, id: Id, now: int)
    requires SystemInv(cfg, s)
    ensures SystemInv(cfg, Step(cfg, s, Close(id), now).0)
  {
    CloseStep(cfg.lim, s.store, id, now);
    CloseKeepsOk(cfg.lim, s.store, id, now);
    CloseIds(s.store, id, now);
    var (st, out) := CloseSession(s.store, id, now);
    assert SessionKnown(s, id);
    if out.Ok? {
      OwingStoreMove(cfg, s, st, Owed(id, None));
    }
  }

  lemma ContextInv(cfg: Config, s: System, id: Id, changes: Changes, clear: bool, now: int)
    requires SystemInv(cfg, s)
    ensures SystemInv(cfg, Step(cfg, s, Context(id, changes, clear), now).0)
  {
    ContextStepIs(cfg, s, id, changes, clear, now);
    UpdateContextStep(cfg.lim, s.store, id, changes, clear, now);
    QuietStoreMove(cfg, s, UpdateContext(s.store, id, changes, clear, now).0);
  }

  lemma ContextStepIs(cfg: Config, s: System, id: Id, changes: Changes, clear: bool, now: int)
    requires SystemInv(cfg, s)
    ensures Step(cfg, s, Context(id, changes, clear), now).0
            == s.(store := UpdateContext(s.store, id, changes, clear, now).0)
  {
  }

  lemma PendingStepIs(cfg: Config, s: System, id: Id, request: Option<string>, now: int)
    requires SystemInv(cfg, s)
    ensures Step(cfg, s, Pending(id, request), now).0 == s.(store := SetPending(s.store, cfg.lim, id, request, now).0)
  {
  }

  lemma PendingInv(cfg: Config, s: System, id: Id, request: Option<string>, now: int)
    requires SystemInv(cfg, s)
    ensures SystemInv(cfg, Step(cfg, s, Pending(id, request), now).0)
  {
    PendingStepIs(cfg, s, id, request, now);
    SetPendingStep(cfg.lim, s.store, id, request, now);
    QuietStoreMove(cfg, s, SetPending(s.store, cfg.lim, id, request, now).0);
  }

  // ------------------------------------------------------ steps of the queue

  /** A step that only touches the queue: no new tokens, no higher tombstones. */
  lemma QueueMoveKeeps(cfg: Config, s: System, s': System)
    requires SystemInv(cfg, s) && QueueInv(s'.queue, cfg.b)
    requires s' == s.(queue := s'.queue, owed := s'.owed, itemIds := s'.itemIds, log := s'.log)
    requires s'.owed <= s.owed && s.itemIds <= s'.itemIds
    requires forall id {:trigger ItemKnown(s', id)} :: ItemKnown(s', id)
    requires forall t {:trigger TombstoneLow(s', t)} :: TombstoneLow(s', t)
    requires forall c {:trigger ClientLogOk(s', c)} :: ClientLogOk(s', c)
    ensures SystemInv(cfg, s')
  {
    forall id ensures SessionKnown(s', id) { assert SessionKnown(s, id); }
    forall o ensures OwedOk(s', o) { assert OwedOk(s, o); }
  }

  lemma LogGrows(log: seq<Event>, e: Event, c: string)
    ensures PhaseAfter(log + [e], c) ==
              (var before := PhaseAfter(log, c);
               if before.None? || e.client != c then before else NextPhase(before.value, e))
    ensures EnqueueOrder(log + [e], c) ==
              if e.Enqueued? && e.client == c then EnqueueOrder(log, c) + [e.id] else EnqueueOrder(log, c)
    ensures PlayOrder(log + [e], c) ==
              if e.Played? && e.client == c then PlayOrder(log, c) + [e.id] else PlayOrder(log, c)
  {
    assert (log + [e])[..|log|] == log;
  }

  lemma SpeakInv(cfg: Config, s: System, op: Op, now: int)
    requires SystemInv(cfg, s) && op.Speak? && FreshIds(s, op)
    ensures SystemInv(cfg, Step(cfg, s, op, now).0)
  {
    var (q, out) := Enqueue(s.queue, cfg.b, s.store, op.clientId, op.token, op.audioRef, op.contentType, op.candidates);
    EnqueueKeeps(s.queue, cfg.b, s.store, op.clientId, op.token, op.audioRef, op.contentType, op.candidates);
    EnqueueEffect(s.queue, cfg.b, s.store, op.clientId, op.token, op.audioRef, op.contentType, op.candidates);
    if out.Ok? && out.value.Some? {
      SpokenInv(cfg, s, Item(out.value.value, op.clientId, op.token, op.audioRef, op.contentType, Queued, None));
    } else {
      SameViewInv(cfg, s, q);
    }
  }

  lemma SameViewInv(cfg: Config, s: System, q: Queue)
    requires SystemInv(cfg, s) && QueueInv(q, cfg.b)
    requires q == s.queue.(queued := q.queued) && forall c :: QueueOf(q, c) == QueueOf(s.queue, c)
    ensures SystemInv(cfg, s.(queue := q))
  {
    var s' := s.(queue := q);
    forall id ensures ItemKnown(s', id) { assert ItemKnown(s, id); }
    forall t ensures TombstoneLow(s', t) { assert TombstoneLow(s, t); }
    forall c ensures ClientLogOk(s', c) { assert ClientLogOk(s, c); }
    QueueMoveKeeps(cfg, s, s');
  }

  lemma SpokenInv(cfg: Config, s: System, item: Item)
    requires SystemInv(cfg, s) && Accepts(s.store, item.token)
    requires QueueInv(AddItem(s.queue, item), cfg.b) && item.id !in s.itemIds && item.state == Queued
    ensures SystemInv(cfg, s.(queue := AddItem(s.queue, item), itemIds := s.itemIds + {item.id},
                              log := s.log + [Enqueued(item.clientId, item.id)]))
  {
    var s' := s.(queue := AddItem(s.queue, item), itemIds := s.itemIds + {item.id},
                 log := s.log + [Enqueued(item.clientId, item.id)]);
    forall id ensures ItemKnown(s', id) {
      assert ItemKnown(s, id);
      if id == item.id { AcceptedIsKnown(cfg, s, item.token); }
    }
    forall t ensures TombstoneLow(s', t) { assert TombstoneLow(s, t); }
    forall c ensures ClientLogOk(s', c) { SpokenLog(s, s', item, c); }
    QueueMoveKeeps(cfg, s, s');
  }

  lemma AcceptedIsKnown(cfg: Config, s: System, t: Token)
    requires SystemInv(cfg, s) && Accepts(s.store, t)
    ensures t.sessionId in s.sessionIds && t.turnId in s.turnIds && NotAhead(s.store, t.sessionId, t.generation)
  {
    assert SessionKnown(s, t.sessionId);
    var turns := s.store.sessions[t.sessionId].turns;
    assert turns[FindTurn(turns, t.turnId)] in turns;
  }

  lemma SpokenLog(s: System, s': System, item: Item, c: string)
    requires forall d {:trigger ClientLogOk(s, d)} :: ClientLogOk(s, d)
    requires item.id !in s.itemIds
    requires s'.queue == AddItem(s.queue, item) && s'.itemIds == s.itemIds + {item.id}
    requires s'.log == s.log + [Enqueued(item.clientId, item.id)]
    ensures ClientLogOk(s', c)
  {
    assert ClientLogOk(s, c);
    LogGrows(s.log, Enqueued(item.clientId, item.id), c);
    if c == item.clientId {
      var plays, waits, all := PlayOrder(s.log, c), QueueOf(s.queue, c), EnqueueOrder(s.log, c);
      SubseqAppend(plays + waits, all, item.id);
      assert plays + (waits + [item.id]) == plays + waits + [item.id];
      DistinctAppend(all, item.id);
    }
  }

  function AfterPoll(s: System, q: Queue, out: Option<Command>, c: string): System {
    if out.None? then s.(queue := q) else s.(queue := q, log := s.log + [PollEvent(c, out.value)])
  }

  lemma PollStepIs(cfg: Config, s: System, c: string, now: int)
    requires SystemInv(cfg, s)
    ensures var (q, out) := NextCommand(s.queue, cfg.b, s.store, c);
            Step(cfg, s, Poll(c), now).0 == AfterPoll(s, q, out, c)
  {
  }

  lemma PollInv(cfg: Config, s: System, c: string, now: int)
    requires SystemInv(cfg, s)
    ensures SystemInv(cfg, Step(cfg, s, Poll(c), now).0)
  {
    var (q, out) := NextCommand(s.queue, cfg.b, s.store, c);
    PollStepIs(cfg, s, c, now);
    NextCommandKeeps(s.queue, cfg.b, s.store, c);
    NextCommandEffect(s.queue, cfg.b, s.store, c);
    PolledInv(cfg, s, q, out, c);
  }

  lemma PolledInv(cfg: Config, s: System, q: Queue, out: Option<Command>, c: string)
    requires SystemInv(cfg, s) && QueueInv(q, cfg.b) && PollEffect(s.queue, s.store, c, q, out)
    ensures SystemInv(cfg, AfterPoll(s, q, out, c))
  {
    var s' := AfterPoll(s, q, out, c);
    forall id ensures ItemKnown(s', id) { assert ItemKnown(s, id); }
    forall t ensures TombstoneLow(s', t) { assert TombstoneLow(s, t); }
    forall d ensures ClientLogOk(s', d) { PolledLog(s, s', c, out, d); }
    QueueMoveKeeps(cfg, s, s');
  }

  lemma PolledLog(s: System, s': System, c: string, out: Option<Command>, d: string)
    requires PollEffect(s.queue, s.store, c, s'.queue, out) && s' == AfterPoll(s, s'.queue, out, c)
    requires forall d {:trigger ClientLogOk(s, d)} :: ClientLogOk(s, d)
    ensures ClientLogOk(s', d)
  {
    assert ClientLogOk(s, d) && ClientLogOk(s, c);
    if d == c { PollLog(s, s', c, out); }
    else if out.Some? { LogGrows(s.log, PollEvent(c, out.value), d); }
  }

  lemma PollLog(s: System, s': System, c: string, out: Option<Command>)
    requires ClientLogOk(s, c) && PollEffect(s.queue, s.store, c, s'.queue, out)
    requires s'.itemIds == s.itemIds && s'.log == if out.None? then s.log else s.log + [PollEvent(c, out.value)]
    ensures ClientLogOk(s', c)
  {
    var plays, all := PlayOrder(s.log, c), EnqueueOrder(s.log, c);
    var before, after := QueueOf(s.queue, c), QueueOf(s'.queue, c);
    if out.None? {
      TakeFromQueue(plays, [], after, before, all);
    } else {
      LogGrows(s.log, PollEvent(c, out.value), c);
      if out.value.kind.Play? {
        TakeFromQueue(plays, [out.value.playbackId], after, before, all);
      }
    }
  }

  lemma TakeFromQueue(plays: seq<Id>, taken: seq<Id>, after: seq<Id>, before: seq<Id>, all: seq<Id>)
    requires Subseq(plays + before, all)
    requires Subseq(if taken == [] then after else taken + after, before)
    ensures Subseq((if taken == [] then plays else plays + taken) + after, all)
  {
    if taken == [] {
      SubseqConcat(plays, after, before);
      SubseqTrans(plays + after, plays + before, all);
    } else {
      SubseqConcat(plays, taken + after, before);
      SubseqTrans(plays + (taken + after), plays + before, all);
      assert plays + taken + after == plays + (taken + after);
    }
  }

  lemma AckInv(cfg: Config, s: System, ack: Ack, now: int)
    requires SystemInv(cfg, s)
    ensures SystemInv(cfg, Step(cfg, s, Acked(ack), now).0)
  {
    var q := Acknowledge(s.queue, cfg.b, s.store, ack).0;
    AcknowledgeKeeps(s.queue, cfg.b, s.store, ack);
    AcknowledgeEffect(s.queue, cfg.b, s.store, ack);
    var c := ack.clientId;
    var s' := if c in s.queue.active && c !in q.active
              then s.(queue := q, log := s.log + [Ended(c, ack.playbackId)]) else s.(queue := q);
    assert s' == Step(cfg, s, Acked(ack), now).0;
    forall id ensures ItemKnown(s', id) { assert ItemKnown(s, id); }
    forall t ensures TombstoneLow(s', t) { assert TombstoneLow(s, t); }
    forall d ensures ClientLogOk(s', d) { assert ClientOk(s.queue, cfg.b, d); AckLog(s, s', ack, d); }
    QueueMoveKeeps(cfg, s, s');
  }

  /** What an acknowledgement may do to the client's slot. */
  ghost predicate AckEffect(q: Queue, r: Queue, ack: Ack) {
    && OnlyClient(q, r, ack.clientId)
    && QueueOf(r, ack.clientId) == QueueOf(q, ack.clientId)
    && CommandsOf(r, ack.clientId) == CommandsOf(q, ack.clientId)
    && (ack.clientId in r.active ==> ack.clientId in q.active && r.active[ack.clientId] == q.active[ack.clientId])
    && (ack.clientId in q.active && ack.clientId !in r.active ==> q.active[ack.clientId] == ack.playbackId)
  }

  lemma AckLog(s: System, s': System, ack: Ack, d: string)
    requires ClientLogOk(s, d) && AckEffect(s.queue, s'.queue, ack) && s'.itemIds == s.itemIds
    requires d in s.queue.active ==> CommandsOf(s.queue, d) == []
    requires s'.log == if ack.clientId in s.queue.active && ack.clientId !in s'.queue.active
                       then s.log + [Ended(ack.clientId, ack.playbackId)] else s.log
    ensures ClientLogOk(s', d)
  {
    LogGrows(s.log, Ended(ack.clientId, ack.playbackId), d);
  }

  // ---------------------------------------------------------- the STOP half

  /** The STOPs of one cancellation, as seen by client `c`. */
  lemma StopGrows(log: seq<Event>, q: Queue, cancelled: seq<Item>)
    requires cancelled != []
    ensures var front, last := cancelled[..|cancelled| - 1], cancelled[|cancelled| - 1];
            log + StopEvents(q, cancelled) ==
              if IsActive(q, last.clientId, last.id)
                then log + StopEvents(q, front) + [StopIssued(last.clientId, last.id)]
              else log + StopEvents(q, front)
  {
  }

  /** Cancelling appends at most one event per client: a STOP for its active item. */
  lemma {:induction false} StopLog(log: seq<Event>, q: Queue, cancelled: seq<Item>, c: string)
    requires forall i, j :: 0 <= i < j < |cancelled| ==> cancelled[i].id != cancelled[j].id
    requires PhaseAfter(log, c) == Some(PhaseOf(q, c))
    ensures PhaseAfter(log + StopEvents(q, cancelled), c) ==
              if exists i :: i in cancelled && i.clientId == c && IsActive(q, c, i.id)
              then Some(Stopping(q.active[c])) else PhaseAfter(log, c)
    ensures EnqueueOrder(log + StopEvents(q, cancelled), c) == EnqueueOrder(log, c)
    ensures PlayOrder(log + StopEvents(q, cancelled), c) == PlayOrder(log, c)
  {
    if cancelled == [] {
      assert log + StopEvents(q, cancelled) == log;
    } else {
      var front, last := cancelled[..|cancelled| - 1], cancelled[|cancelled| - 1];
      StopLog(log, q, front, c);
      StopGrows(log, q, cancelled);
      assert forall i :: i in cancelled <==> i in front || i == last;
      if IsActive(q, last.clientId, last.id) {
        LogGrows(log + StopEvents(q, front), StopIssued(last.clientId, last.id), c);
        if last.clientId == c { OnlyLastStops(q, cancelled, c); }
      }
    }
  }

  /** A client's slot holds one item, so only one cancelled item can be in it. */
  lemma OnlyLastStops(q: Queue, cancelled: seq<Item>, c: string)
    requires forall i, j :: 0 <= i < j < |cancelled| ==> cancelled[i].id != cancelled[j].id
    requires cancelled != [] && IsActive(q, c, cancelled[|cancelled| - 1].id)
    ensures forall i :: i in cancelled[..|cancelled| - 1] ==> !IsActive(q, c, i.id)
  {
    var front, last := cancelled[..|cancelled| - 1], cancelled[|cancelled| - 1];
    forall i | i in front ensures !IsActive(q, c, i.id) {
      var k :| 0 <= k < |front| && front[k] == i;
      assert cancelled[k].id != last.id;
    }
  }

  /** The floor an owed cancellation puts under a session is below its generation. */
  lemma FloorLow(cfg: Config, s: System, owed: Owed)
    requires SystemInv(cfg, s) && owed in s.owed && (forall id :: id in s.queue.order ==> id in s.queue.items)
    ensures owed.sessionId in s.sessionIds
    ensures Below(s.store, owed.sessionId, CancelFloor(s.queue, owed.sessionId, owed.through))
    ensures Below(s.store, owed.sessionId, Floor(s.queue.tombstones, owed.sessionId))
  {
    assert OwedOk(s, owed);
    var floor := Floor(s.queue.tombstones, owed.sessionId);
    if floor != -1 {
      assert TombstoneLow(s, Tombstone(owed.sessionId, floor));
    }
    if owed.through.None? {
      var snap := Snapshot(s.queue);
      var newest := NewestGeneration(snap, owed.sessionId);
      if newest != -1 {
        var i :| i in snap && i.token.sessionId == owed.sessionId && i.token.generation == newest;
        var k :| 0 <= k < |snap| && snap[k] == i;
        assert StoredOk(s.queue, s.queue.order[k]);
        assert ItemKnown(s, s.queue.order[k]);
      }
    }
  }

  lemma StopInv(cfg: Config, s: System, owed: Owed, now: int)
    requires SystemInv(cfg, s)
    ensures SystemInv(cfg, Step(cfg, s, StopPlayback(owed), now).0)
  {
    if owed in s.owed {
      CancelSessionKeeps(s.queue, cfg.b, owed.sessionId, owed.through);
      CancelOnce(s.queue, cfg.b, owed.sessionId, owed.through);
      FloorLow(cfg, s, owed);
      var (q, cancelled) := CancelSession(s.queue, cfg.b, owed.sessionId, owed.through);
      var s' := s.(queue := q, owed := s.owed - multiset{owed}, log := s.log + StopEvents(s.queue, cancelled));
      forall id ensures ItemKnown(s', id) { assert ItemKnown(s, id); }
      forall t ensures TombstoneLow(s', t) { assert TombstoneLow(s, t); }
      forall c ensures ClientLogOk(s', c) { StopClientLog(cfg, s, owed.sessionId, s', cancelled, c); }
      QueueMoveKeeps(cfg, s, s');
    }
  }

  lemma StopClientLog(cfg: Config, s: System, sessionId: Id, s': System, cancelled: seq<Item>, c: string)
    requires SystemInv(cfg, s) && CancelEffect(s.queue, sessionId, s'.queue, cancelled)
    requires forall i, j :: 0 <= i < j < |cancelled| ==> cancelled[i].id != cancelled[j].id
    requires s'.log == s.log + StopEvents(s.queue, cancelled) && s'.itemIds == s.itemIds
    ensures ClientLogOk(s', c)
  {
    assert ClientLogOk(s, c);
    assert ClientOk(s.queue, cfg.b, c);
    StopLog(s.log, s.queue, cancelled, c);
    assert SlotStep(s.queue, s'.queue, c);
    var plays, all := PlayOrder(s.log, c), EnqueueOrder(s.log, c);
    assert Subseq(QueueOf(s'.queue, c), QueueOf(s.queue, c));
    SubseqConcat(plays, QueueOf(s'.queue, c), QueueOf(s.queue, c));
    SubseqTrans(plays + QueueOf(s'.queue, c), plays + QueueOf(s.queue, c), all);
    if c in s.queue.active {
      var id := s.queue.active[c];
      assert StoredOk(s.queue, id);
      if Live(s'.queue, id) {
        forall i | i in cancelled ensures !(i.clientId == c && IsActive(s.queue, c, i.id)) {}
      } else {
        assert s.queue.items[id] in cancelled;
      }
    }
  }

  // ------------------------------------------------------------- all of them

  lemma StepInv(cfg: Config, s: System, op: Op, now: int)
    requires SystemInv(cfg, s) && FreshIds(s, op)
    ensures SystemInv(cfg, Step(cfg, s, op, now).0)
  {
    match op
    case Create(_, _, _) => CreateInv(cfg, s, op, now);
    case Begin(_, _, _, _, _) => BeginInv(cfg, s, op, now);
    case Move(_, _, _) => TokenOpInv(cfg, s, op, now);
    case End(_, _, _) => TokenOpInv(cfg, s, op, now);
    case Commit(_, _, _) => TokenOpInv(cfg, s, op, now);
    case CancelTurn(id) => CancelTurnInv(cfg, s, id, now);
    case Close(id) => CloseInv(cfg, s, id, now);
    case StopPlayback(owed) => StopInv(cfg, s, owed, now);
    case Context(id, changes, clear) => ContextInv(cfg, s, id, changes, clear, now);
    case Pending(id, request) => PendingInv(cfg, s, id, request, now);
    case Speak(_, _, _, _, _) => SpeakInv(cfg, s, op, now);
    case Poll(c) => PollInv(cfg, s, c, now);
    case Acked(ack) => AckInv(cfg, s, ack, now);
  }
}
