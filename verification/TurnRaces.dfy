/** When an acknowledgement raises if handlers are not atomic.  Here every operation of a
    handler is a step of its own and interleaves with all others; only the
    acknowledgement handler is one step. */
module TurnRaces {
  import opened Collections
  import opened Sessions
  import opened SessionSteps
  import opened Playback
  import opened PlaybackInvariant
  import opened PlaybackEffects
  import opened TurnProtocol
  import opened TurnProtocolProofs
  import opened TurnTheorems
  import opened TurnHandlers
  import opened TurnAgreement

  // ----------------------------------------------------- the exact condition

  /** The acknowledged item is the active one of the client that acknowledges it, and its
      token is accepted. */
  predicate Owned(w: World, ack: Ack) {
    && ack.playbackId in w.queue.items
    && w.queue.items[ack.playbackId].clientId == ack.clientId
    && IsActive(w.queue, ack.clientId, ack.playbackId)
    && Accepts(w.store, w.queue.items[ack.playbackId].token)
  }

  /** STARTED for a queued item whose turn has not been marked as queued for playback. */
  predicate StartsTooEarly(w: World, ack: Ack) {
    && Owned(w, ack) && ack.state.Started? && w.queue.items[ack.playbackId].state.Queued?
    && Rank(StageAt(w.store, w.queue.items[ack.playbackId].token)) < Rank(PlaybackQueued)
  }

  /** COMPLETED for a started item whose turn may not complete from where it is. */
  predicate EndsTooEarly(w: World, ack: Ack) {
    && Owned(w, ack) && ack.state.Completed? && w.queue.items[ack.playbackId].state.Started?
    && StageAt(w.store, w.queue.items[ack.playbackId].token) in {Capturing, Transcribing, PlaybackQueued}
  }

  lemma StartedRaisesIff(cfg: Config, w: World, ack: Ack, now: int)
    requires StoreOk(cfg.lim, w.store) && QueueInv(w.queue, cfg.b) && ack.state.Started?
    ensures Acknowledged(cfg, w, ack, now).1 == HandlerRaised <==> StartsTooEarly(w, ack)
  {
    if ack.playbackId in w.queue.items { AckItems(w.queue, cfg.b, w.store, ack); }
  }

  lemma OtherRaisesIff(cfg: Config, w: World, ack: Ack, now: int)
    requires StoreOk(cfg.lim, w.store) && QueueInv(w.queue, cfg.b) && !ack.state.Started?
    ensures Acknowledged(cfg, w, ack, now).1 == HandlerRaised <==> EndsTooEarly(w, ack)
  {
    if ack.playbackId in w.queue.items { AckItems(w.queue, cfg.b, w.store, ack); }
  }

  /** In any well-formed world an acknowledgement raises in these two cases and no other. */
  lemma AckRaisesIff(cfg: Config, w: World, ack: Ack, now: int)
    requires StoreOk(cfg.lim, w.store) && QueueInv(w.queue, cfg.b)
    ensures Acknowledged(cfg, w, ack, now).1 == HandlerRaised <==> StartsTooEarly(w, ack) || EndsTooEarly(w, ack)
  {
    if ack.state.Started? { StartedRaisesIff(cfg, w, ack, now); } else { OtherRaisesIff(cfg, w, ack, now); }
  }

  /** Between queueing the audio and marking the turn, an idle client may already poll
      the item and acknowledge it: the turn is still synthesizing, so the acknowledgement
      is accepted by the queue and then raises.  Agreement needs the handler as one step. */
  lemma AckRaceRaises(cfg: Config, w: World, item: Item, now: int)
    requires StoreOk(cfg.lim, w.store) && QueueInv(w.queue, cfg.b)
    requires Accepts(w.store, item.token) && StageAt(w.store, item.token) == Synthesizing
    requires item.state == Queued && item.id !in w.queue.items
    requires QueueOf(w.queue, item.clientId) == [] && CommandsOf(w.queue, item.clientId) == []
             && item.clientId !in w.queue.active
    ensures var (polled, command) := NextCommand(AddItem(w.queue, item), cfg.b, w.store, item.clientId);
            && command == Some(PlayCommand(item))
            && Acknowledged(cfg, w.(queue := polled), Ack(item.id, item.clientId, Started, None), now).1
               == HandlerRaised
  {
    PolledAtOnce(w.queue, cfg.b, w.store, item);
    var polled := NextCommand(AddItem(w.queue, item), cfg.b, w.store, item.clientId).0;
    assert Acknowledge(polled, cfg.b, w.store, Ack(item.id, item.clientId, Started, None)).1;
  }

  lemma PolledAtOnce(q: Queue, b: Bounds, st: Store, item: Item)
    requires Accepts(st, item.token) && item.state == Queued && item.id !in q.items
    requires QueueOf(q, item.clientId) == [] && CommandsOf(q, item.clientId) == [] && item.clientId !in q.active
    ensures var (polled, command) := NextCommand(AddItem(q, item), b, st, item.clientId);
            && command == Some(PlayCommand(item))
            && item.id in polled.items && polled.items[item.id] == item && IsActive(polled, item.clientId, item.id)
  {
    assert [item.id][0] == item.id;
  }

  // --------------------------------------------------- runs of single operations

  /** A started item of accepted work has its turn playing. */
  ghost predicate StartedPlays(st: Store, q: Queue, id: Id) {
    id in q.items && q.items[id].state.Started? && Accepts(st, q.items[id].token) ==>
      StageAt(st, q.items[id].token) == Stage.Playing
  }

  ghost predicate InStep(st: Store, q: Queue) {
    forall id {:trigger StartedPlays(st, q, id)} :: StartedPlays(st, q, id)
  }

  lemma AcceptedTurn(lim: Limits, st: Store, t: Token, turn: Turn)
    requires StoreOk(lim, st) && t.sessionId in st.sessions && turn in st.sessions[t.sessionId].turns
    requires turn.id == t.turnId && !Terminal(turn.stage) && t.generation == st.sessions[t.sessionId].generation
    ensures Accepts(st, t) && StageAt(st, t) == turn.stage
  {
    var s := st.sessions[t.sessionId];
    var i := FindTurn(s.turns, t.turnId);
    var j :| 0 <= j < |s.turns| && s.turns[j] == turn;
    assert s.turns[i].id == s.turns[j].id;
  }

  /** Work of a known turn that is accepted after a step was accepted before it, and if
      its turn was playing it still is. */
  lemma PlayingStays(cfg: Config, s: System, op: Op, now: int, t: Token)
    requires SystemInv(cfg, s) && FreshIds(s, op) && t.sessionId in s.sessionIds && t.turnId in s.turnIds
    requires Accepts(Step(cfg, s, op, now).0.store, t)
    ensures Accepts(s.store, t)
    ensures StageAt(s.store, t) == Stage.Playing ==> StageAt(Step(cfg, s, op, now).0.store, t) == Stage.Playing
  {
    var s' := Step(cfg, s, op, now).0;
    StepInv(cfg, s, op, now);
    StepSystemStep(cfg, s, op, now);
    PlayingKept(cfg, s, s', t);
  }

  lemma PlayingKept(cfg: Config, s: System, s': System, t: Token)
    requires StoreOk(cfg.lim, s.store) && StoreOk(cfg.lim, s'.store) && SystemStep(s, s')
    requires t.sessionId in s.sessionIds && t.turnId in s.turnIds && Accepts(s'.store, t)
    ensures Accepts(s.store, t)
    ensures StageAt(s.store, t) == Stage.Playing ==> StageAt(s'.store, t) == Stage.Playing
  {
    var after := s'.store.sessions[t.sessionId];
    var turn := after.turns[FindTurn(after.turns, t.turnId)];
    assert turn in after.turns;
    var before := s.store.sessions[t.sessionId];
    assert SessionStep(before, after) && turn.id in TurnIds(before.turns);
    assert TurnStep(before, after, turn);
    if turn in before.turns {
      OpenTurnHere(cfg.lim, before, turn);
      AcceptedTurn(cfg.lim, s.store, t, turn);
    } else {
      var u :| u in before.turns && Climbed(before, u, turn);
      AcceptedTurn(cfg.lim, s.store, t, u);
    }
  }

  lemma OpenTurnHere(lim: Limits, s: Session, turn: Turn)
    requires SessionOk(lim, s) && turn in s.turns && !Terminal(turn.stage)
    ensures turn.generation == s.generation && s.active
  {
  }

  /** A started item was there before, and was started if its token is accepted. */
  ghost predicate NoneStarted(q: Queue, st: Store, q': Queue, id: Id) {
    id in q'.items && q'.items[id].state.Started? ==>
      && id in q.items && q'.items[id].token == q.items[id].token
      && (Accepts(st, q.items[id].token) ==> q.items[id].state.Started?)
  }

  lemma OpStartsNothing(cfg: Config, s: System, op: Op, now: int, id: Id)
    requires SystemInv(cfg, s) && FreshIds(s, op) && !op.Acked?
    ensures NoneStarted(s.queue, s.store, Step(cfg, s, op, now).0.queue, id)
  {
    match op {
      case Speak(clientId, token, audioRef, contentType, candidates) =>
        SpeakStepIs(cfg, s, op, now);
        EnqueueEffect(s.queue, cfg.b, s.store, clientId, token, audioRef, contentType, candidates);
      case Poll(clientId) =>
        PollStepIs(cfg, s, clientId, now);
        PollStartsNothing(s.queue, cfg.b, s.store, clientId, id);
      case StopPlayback(owed) => StopStartsNothing(cfg, s, owed, now, id);
      case _ => StoreOpsKeepQueue(cfg, s, op, now);
    }
  }

  lemma SpeakStepIs(cfg: Config, s: System, op: Op, now: int)
    requires SystemInv(cfg, s) && op.Speak?
    ensures Step(cfg, s, op, now).0.queue
            == Enqueue(s.queue, cfg.b, s.store, op.clientId, op.token, op.audioRef, op.contentType, op.candidates).0
  {
  }

  lemma StopStartsNothing(cfg: Config, s: System, owed: Owed, now: int, id: Id)
    requires SystemInv(cfg, s)
    ensures NoneStarted(s.queue, s.store, Step(cfg, s, StopPlayback(owed), now).0.queue, id)
  {
    CancelStartsNothing(s.queue, cfg.b, s.store, owed.sessionId, owed.through, id);
  }

  lemma StoreOpsKeepQueue(cfg: Config, s: System, op: Op, now: int)
    requires SystemInv(cfg, s) && !op.Speak? && !op.Poll? && !op.StopPlayback? && !op.Acked?
    ensures Step(cfg, s, op, now).0.queue == s.queue
  {
  }

  lemma PollStartsNothing(q: Queue, b: Bounds, st: Store, c: string, id: Id)
    requires QueueInv(q, b)
    ensures NoneStarted(q, st, NextCommand(q, b, st, c).0, id)
  {
    NextCommandDrops(q, b, st, c);
    NextCommandEffect(q, b, st, c);
  }

  lemma CancelStartsNothing(q: Queue, b: Bounds, st: Store, sessionId: Id, through: Option<int>, id: Id)
    requires QueueInv(q, b)
    ensures Ordered(q) && NoneStarted(q, st, CancelSession(q, b, sessionId, through).0, id)
  {
    CancelSessionKeeps(q, b, sessionId, through);
    var r := CancelSession(q, b, sessionId, through).0;
    assert Live(r, id) ==> Live(q, id) && r.items[id] == q.items[id];
  }

  lemma StartedStays(cfg: Config, s: System, op: Op, now: int, q: Queue, id: Id)
    requires SystemInv(cfg, s) && FreshIds(s, op) && StartedPlays(s.store, s.queue, id)
             && NoneStarted(s.queue, s.store, q, id)
    ensures StartedPlays(Step(cfg, s, op, now).0.store, q, id)
  {
    if id in q.items && q.items[id].state.Started? && Accepts(Step(cfg, s, op, now).0.store, q.items[id].token) {
      assert ItemKnown(s, id);
      PlayingStays(cfg, s, op, now, q.items[id].token);
    }
  }

  /** Every single operation keeps started items and playing turns in step. */
  lemma OpKeepsInStep(cfg: Config, s: System, op: Op, now: int)
    requires SystemInv(cfg, s) && FreshIds(s, op) && !op.Acked? && InStep(s.store, s.queue)
    ensures var s' := Step(cfg, s, op, now).0; InStep(s'.store, s'.queue)
  {
    var s' := Step(cfg, s, op, now).0;
    forall id ensures StartedPlays(s'.store, s'.queue, id) {
      assert StartedPlays(s.store, s.queue, id);
      OpStartsNothing(cfg, s, op, now, id);
      StartedStays(cfg, s, op, now, s'.queue, id);
    }
  }

  // ------------------------------------------------------------- the handler

  /** The acknowledgement handler in terms of the single operations it calls. */
  function AckSteps(cfg: Config, s: System, ack: Ack, now: int): (r: System)
    requires SystemInv(cfg, s)
    ensures SystemInv(cfg, r)
  {
    StepInv(cfg, s, Acked(ack), now);
    var (s1, answer) := Step(cfg, s, Acked(ack), now);
    var stage := AckStage(ack.state);
    if !answer.accepted || stage.None? || ack.playbackId !in s.queue.items
      || s.queue.items[ack.playbackId].state == ack.state then s1
    else
      var token := s.queue.items[ack.playbackId].token;
      if !Accepts(s1.store, token) then s1
      else
        StepInv(cfg, s1, Move(token, stage.value, AckCode(ack)), now);
        Step(cfg, s1, Move(token, stage.value, AckCode(ack)), now).0
  }

  lemma AckedStepIs(cfg: Config, s: System, ack: Ack, now: int)
    requires SystemInv(cfg, s)
    ensures var (s1, answer) := Step(cfg, s, Acked(ack), now);
            var (q, ok) := Acknowledge(s.queue, cfg.b, s.store, ack);
            s1.store == s.store && s1.queue == q && answer == AckResult(ok)
  {
  }

  lemma MoveStepIs(cfg: Config, s: System, token: Token, stage: Stage, code: Option<string>, now: int)
    requires SystemInv(cfg, s)
    ensures Step(cfg, s, Move(token, stage, code), now).0 == s.(store := Transition(s.store, token, stage, code, now).0)
  {
  }

  /** Acknowledging has nothing to do with the audio artifacts. */
  function WorldOf(s: System): World {
    World(s.store, s.queue, [])
  }

  /** What the steps of the handler leave behind is what the handler is specified to leave. */
  lemma AckStepsIsHandler(cfg: Config, s: System, ack: Ack, now: int)
    requires SystemInv(cfg, s)
    ensures var s' := AckSteps(cfg, s, ack, now);
            WorldOf(s') == Acknowledged(cfg, WorldOf(s), ack, now).0
  {
    AckedStepIs(cfg, s, ack, now);
    if ack.playbackId in s.queue.items {
      AckItems(s.queue, cfg.b, s.store, ack);
      if AckStage(ack.state).Some? {
        StepInv(cfg, s, Acked(ack), now);
        var s1 := Step(cfg, s, Acked(ack), now).0;
        MoveStepIs(cfg, s1, s.queue.items[ack.playbackId].token, AckStage(ack.state).value, AckCode(ack), now);
      }
    }
  }

  predicate Raises(cfg: Config, s: System, ack: Ack, now: int) {
    Acknowledged(cfg, WorldOf(s), ack, now).1.HandlerRaised?
  }

  /** The item an acknowledgement may start, and no other. */
  lemma AckStartsOne(q: Queue, b: Bounds, st: Store, ack: Ack, id: Id)
    requires QueueInv(q, b) && (id != ack.playbackId || !ack.state.Started?)
    ensures NoneStarted(q, st, Acknowledge(q, b, st, ack).0, id)
  {
    if ack.playbackId in q.items { AckItems(q, b, st, ack); }
  }

  lemma AckedInStep(cfg: Config, w: World, ack: Ack, now: int, id: Id)
    requires StoreOk(cfg.lim, w.store) && QueueInv(w.queue, cfg.b) && InStep(w.store, w.queue)
    requires ack.state.Started? && id == ack.playbackId && !Acknowledged(cfg, w, ack, now).1.HandlerRaised?
    ensures var w' := Acknowledged(cfg, w, ack, now).0; StartedPlays(w'.store, w'.queue, id)
  {
    assert StartedPlays(w.store, w.queue, id);
    if id in w.queue.items {
      AckItems(w.queue, cfg.b, w.store, ack);
      var token := w.queue.items[id].token;
      if Accepts(w.store, token) && Legal(StageAt(w.store, token), Stage.Playing) {
        MovedSelf(w.store, token, Stage.Playing, AckCode(ack), now);
      }
    }
  }

  lemma AckKeepsInStep(cfg: Config, s: System, ack: Ack, now: int)
    requires SystemInv(cfg, s) && InStep(s.store, s.queue) && !Raises(cfg, s, ack, now)
    ensures var s' := AckSteps(cfg, s, ack, now); InStep(s'.store, s'.queue)
  {
    var s' := AckSteps(cfg, s, ack, now);
    AckStepsIsHandler(cfg, s, ack, now);
    forall id ensures StartedPlays(s'.store, s'.queue, id) {
      assert StartedPlays(s.store, s.queue, id);
      if ack.state.Started? && id == ack.playbackId {
        AckedInStep(cfg, WorldOf(s), ack, now, id);
      } else {
        AckedOther(cfg, s, ack, now, id);
      }
    }
  }

  lemma AckedOther(cfg: Config, s: System, ack: Ack, now: int, id: Id)
    requires SystemInv(cfg, s) && StartedPlays(s.store, s.queue, id) && (id != ack.playbackId || !ack.state.Started?)
    ensures var s' := AckSteps(cfg, s, ack, now); StartedPlays(s'.store, s'.queue, id)
  {
    StepInv(cfg, s, Acked(ack), now);
    var s1 := Step(cfg, s, Acked(ack), now).0;
    AckStartsOne(s.queue, cfg.b, s.store, ack, id);
    AckedStepIs(cfg, s, ack, now);
    assert StartedPlays(s1.store, s1.queue, id);
    var s' := AckSteps(cfg, s, ack, now);
    if s' != s1 {
      MovedStarted(cfg, s1, Move(s.queue.items[ack.playbackId].token, AckStage(ack.state).value, AckCode(ack)), now,
                   id);
    }
  }

  lemma MovedStarted(cfg: Config, s: System, move: Op, now: int, id: Id)
    requires SystemInv(cfg, s) && move.Move? && StartedPlays(s.store, s.queue, id)
    ensures var s' := Step(cfg, s, move, now).0; s'.queue == s.queue && StartedPlays(s'.store, s'.queue, id)
  {
    MoveStepIs(cfg, s, move.token, move.stage, move.failure, now);
    StartedStays(cfg, s, move, now, s.queue, id);
  }

  // ---------------------------------------------------------------- the runs

  datatype Fine = Single(op: Op, now: int) | Handled(ack: Ack, now: int)

  function DoFine(cfg: Config, s: System, f: Fine): (r: System)
    requires SystemInv(cfg, s) && (f.Single? ==> FreshIds(s, f.op))
    ensures SystemInv(cfg, r)
  {
    match f
    case Single(op, now) => StepInv(cfg, s, op, now); Step(cfg, s, op, now).0
    case Handled(ack, now) => AckSteps(cfg, s, ack, now)
  }

  /** Single operations of all requests in any order, acknowledgements only through the
      handler, which has not raised so far. */
  ghost predicate QuietRun(cfg: Config, s: System, fs: seq<Fine>)
    requires SystemInv(cfg, s)
    decreases |fs|
  {
    fs == [] ||
    (&& (fs[0].Single? ==> !fs[0].op.Acked? && FreshIds(s, fs[0].op))
     && (fs[0].Handled? ==> !Raises(cfg, s, fs[0].ack, fs[0].now))
     && QuietRun(cfg, DoFine(cfg, s, fs[0]), fs[1..]))
  }

  ghost function RunFine(cfg: Config, s: System, fs: seq<Fine>): (r: System)
    requires SystemInv(cfg, s) && QuietRun(cfg, s, fs)
    ensures SystemInv(cfg, r)
    decreases |fs|
  {
    if fs == [] then s else RunFine(cfg, DoFine(cfg, s, fs[0]), fs[1..])
  }

  lemma {:induction false} QuietKeepsInStep(cfg: Config, s: System, fs: seq<Fine>)
    requires SystemInv(cfg, s) && InStep(s.store, s.queue) && QuietRun(cfg, s, fs)
    ensures var end := RunFine(cfg, s, fs); InStep(end.store, end.queue)
    decreases |fs|
  {
    if fs != [] {
      match fs[0] {
        case Single(op, now) => OpKeepsInStep(cfg, s, op, now);
        case Handled(ack, now) => AckKeepsInStep(cfg, s, ack, now);
      }
      QuietKeepsInStep(cfg, DoFine(cfg, s, fs[0]), fs[1..]);
    }
  }

  /** However the single operations interleave: the first acknowledgement to raise is a
      STARTED for an item whose turn has not yet reached PLAYBACK_QUEUED, and every such
      acknowledgement raises. */
  lemma FirstRaiseIff(cfg: Config, s: System, fs: seq<Fine>, ack: Ack, now: int)
    requires SystemInv(cfg, s) && InStep(s.store, s.queue) && QuietRun(cfg, s, fs)
    ensures var end := RunFine(cfg, s, fs);
            Raises(cfg, end, ack, now) <==> StartsTooEarly(WorldOf(end), ack)
  {
    QuietKeepsInStep(cfg, s, fs);
    InStepRaisesIff(cfg, RunFine(cfg, s, fs), ack, now);
  }

  lemma InStepRaisesIff(cfg: Config, s: System, ack: Ack, now: int)
    requires SystemInv(cfg, s) && InStep(s.store, s.queue)
    ensures Raises(cfg, s, ack, now) <==> StartsTooEarly(WorldOf(s), ack)
  {
    AckRaisesIff(cfg, WorldOf(s), ack, now);
    assert StartedPlays(s.store, s.queue, ack.playbackId);
  }

  /** Every run may start from the empty system. */
  lemma EmptyInStep(cfg: Config)
    requires ValidLimits(cfg.lim) && ValidBounds(cfg.b)
    ensures SystemInv(cfg, INIT) && InStep(INIT.store, INIT.queue)
  {
    InitInv(cfg);
    forall id ensures StartedPlays(INIT.store, INIT.queue, id) {}
  }
}
