/** Whose audio it is when handlers are not atomic: storing, binding, queueing and fetching
    are steps of their own and interleave with every other operation. */
module AudioRaces {
  import opened Collections
  import opened Sessions
  import opened Playback
  import opened PlaybackInvariant
  import opened PlaybackEffects
  import opened TurnProtocol
  import opened TurnProtocolProofs
  import opened TurnHandlers
  import opened TurnRaces
  import opened AudioPrivacy

  // ------------------------------------------------------------------ the steps

  /** The system, the artifact store, and for each artifact ever bound the turn it was
      bound to. */
  datatype Studio = Studio(sys: System, audio: seq<Artifacts.Artifact>, bound: map<Id, Token>)

  datatype Act =
    | Operate(op: Op)
    | Keep(data: Artifacts.Bytes, contentType: string, artifact: Id)
    | Bind(artifact: Id, token: Token)
    | Offer(client: string, token: Token, ref: string, candidates: seq<Id>)
    | Fetch(artifact: Id, session: Option<Id>)

  /** Queueing the audio of a reference for its turn. */
  function OfferOp(client: string, token: Token, ref: string, candidates: seq<Id>): Op {
    Speak(client, token, OwnedRef(ref, token), "audio/wav", candidates)
  }

  /** An artifact is stored under a new id, bound by one call only, and queued by the call
      that bound it. */
  ghost predicate Enabled(s: Studio, act: Act) {
    match act
    case Operate(op) => !op.Speak? && FreshIds(s.sys, op)
    case Keep(_, _, artifact) => artifact !in s.bound
    case Bind(artifact, _) => artifact !in s.bound
    case Offer(client, token, ref, candidates) =>
      && '?' !in ref && AfterSlash(ref) in s.bound && s.bound[AfterSlash(ref)] == token
      && FreshIds(s.sys, OfferOp(client, token, ref, candidates))
    case Fetch(_, _) => true
  }

  function Do(cfg: Config, s: Studio, act: Act, now: int): Studio
    requires SystemInv(cfg, s.sys)
  {
    match act
    case Operate(op) => s.(sys := Step(cfg, s.sys, op, now).0)
    case Keep(data, contentType, artifact) =>
      s.(audio := Artifacts.Put(s.audio, cfg.caps, data, contentType, artifact, now).0)
    case Bind(artifact, token) =>
      var (audio, ok) := Artifacts.Bind(s.audio, cfg.caps, artifact, OwnerOf(token), now);
      s.(audio := audio, bound := if ok then s.bound[artifact := token] else s.bound)
    case Offer(client, token, ref, candidates) => Offered(cfg, s, client, token, ref, candidates, now)
    case Fetch(artifact, session) =>
      s.(audio := Artifacts.Consume(s.audio, cfg.caps, artifact, session, now).0)
  }

  function Offered(cfg: Config, s: Studio, client: string, token: Token, ref: string, candidates: seq<Id>,
                   now: int): Studio
    requires SystemInv(cfg, s.sys)
  {
    s.(sys := Step(cfg, s.sys, OfferOp(client, token, ref, candidates), now).0)
  }

  // ------------------------------------------------------------- the invariant

  /** A kept artifact is bound exactly when its id was ever bound, and then to that turn. */
  ghost predicate OwnerOk(audio: seq<Artifacts.Artifact>, bound: map<Id, Token>, i: int) {
    0 <= i < |audio| ==>
      audio[i].owner == if audio[i].id in bound then Some(OwnerOf(bound[audio[i].id])) else None
  }

  ghost predicate OwnersOk(audio: seq<Artifacts.Artifact>, bound: map<Id, Token>) {
    OneEach(audio) && forall i {:trigger OwnerOk(audio, bound, i)} :: OwnerOk(audio, bound, i)
  }

  /** What an item refers to was bound to the item's turn. */
  ghost predicate ItemBound(q: Queue, bound: map<Id, Token>, id: Id) {
    id in q.items ==>
      var artifact := Fetched(q.items[id].audioRef);
      artifact in bound && bound[artifact] == q.items[id].token
  }

  ghost predicate ItemsBound(q: Queue, bound: map<Id, Token>) {
    forall id {:trigger ItemBound(q, bound, id)} :: ItemBound(q, bound, id)
  }

  ghost predicate StudioInv(cfg: Config, s: Studio) {
    SystemInv(cfg, s.sys) && OwnersOk(s.audio, s.bound) && ItemsBound(s.sys.queue, s.bound)
  }

  lemma EntriesOwned(a: seq<Artifacts.Artifact>, b: seq<Artifacts.Artifact>, bound: map<Id, Token>)
    requires OwnersOk(a, bound) && Entries(a, b)
    ensures OwnersOk(b, bound)
  {
    forall i ensures OwnerOk(b, bound, i) {
      if 0 <= i < |b| {
        var k :| 0 <= k < |a| && a[k] == b[i];
        assert OwnerOk(a, bound, k);
      }
    }
  }

  lemma KeepOwned(audio: seq<Artifacts.Artifact>, bound: map<Id, Token>, caps: Artifacts.Caps, data: Artifacts.Bytes,
                  contentType: string, artifact: Id, now: int)
    requires OwnersOk(audio, bound) && artifact !in bound
    ensures OwnersOk(Artifacts.Put(audio, caps, data, contentType, artifact, now).0, bound)
  {
    var after := Artifacts.Put(audio, caps, data, contentType, artifact, now).0;
    if Artifacts.Storable(data, caps) {
      var kept := Artifacts.Prune(audio, now - caps.ttl);
      var a := Artifacts.Artifact(artifact, contentType, data, now, None);
      PruneKeepsEntries(audio, now - caps.ttl);
      EntriesOwned(audio, kept, bound);
      InsertKeepsEntries(kept, a);
      var more := Artifacts.Insert(kept, a);
      forall i ensures OwnerOk(more, bound, i) {
        if 0 <= i < |more| && more[i] != a {
          var k :| 0 <= k < |kept| && kept[k] == more[i];
          assert OwnerOk(kept, bound, k);
        }
      }
      EvictKeepsEntries(more, caps);
      EntriesOwned(more, after, bound);
    }
  }

  lemma FetchOwned(audio: seq<Artifacts.Artifact>, bound: map<Id, Token>, caps: Artifacts.Caps, artifact: Id,
                   session: Option<Id>, now: int)
    requires OwnersOk(audio, bound)
    ensures OwnersOk(Artifacts.Consume(audio, caps, artifact, session, now).0, bound)
  {
    ConsumeKeepsEntries(audio, caps, artifact, session, now);
    EntriesOwned(audio, Artifacts.Consume(audio, caps, artifact, session, now).0, bound);
  }

  lemma BindOwned(audio: seq<Artifacts.Artifact>, bound: map<Id, Token>, caps: Artifacts.Caps, artifact: Id,
                  token: Token, now: int)
    requires OwnersOk(audio, bound) && artifact !in bound
    ensures var (after, ok) := Artifacts.Bind(audio, caps, artifact, OwnerOf(token), now);
            OwnersOk(after, if ok then bound[artifact := token] else bound)
  {
    var kept := Artifacts.Prune(audio, now - caps.ttl);
    PruneKeepsEntries(audio, now - caps.ttl);
    EntriesOwned(audio, kept, bound);
    var (after, ok) := Artifacts.Bind(audio, caps, artifact, OwnerOf(token), now);
    if ok {
      var k := Artifacts.Find(kept, artifact);
      var more := bound[artifact := token];
      forall i, j ensures OneId(after, i, j) { assert OneId(kept, i, j); }
      forall i ensures OwnerOk(after, more, i) {
        assert OwnerOk(kept, bound, i) && OneId(kept, i, k) && OneId(kept, k, i);
      }
    }
  }

  lemma MoreBound(q: Queue, bound: map<Id, Token>, artifact: Id, token: Token)
    requires ItemsBound(q, bound) && artifact !in bound
    ensures ItemsBound(q, bound[artifact := token])
  {
    var more := bound[artifact := token];
    forall id ensures ItemBound(q, more, id) { assert ItemBound(q, bound, id); }
  }

  lemma SameItemsBound(q: Queue, r: Queue, bound: map<Id, Token>)
    requires ItemsBound(q, bound) && SameItems(q, r)
    ensures ItemsBound(r, bound)
  {
    forall id ensures ItemBound(r, bound, id) { assert ItemBound(q, bound, id); }
  }

  /** No operation but queueing adds an item or changes what one refers to. */
  lemma OperateKeepsItems(cfg: Config, s: System, op: Op, now: int)
    requires SystemInv(cfg, s) && !op.Speak?
    ensures SameItems(s.queue, Step(cfg, s, op, now).0.queue)
  {
    match op {
      case Poll(c) =>
        PollStepIs(cfg, s, c, now);
        NextCommandEffect(s.queue, cfg.b, s.store, c);
      case Acked(ack) =>
        AckedStepIs(cfg, s, ack, now);
        AcknowledgeEffect(s.queue, cfg.b, s.store, ack);
      case StopPlayback(owed) => StopKeepsItems(cfg, s, owed, now);
      case _ => StoreOpsKeepQueue(cfg, s, op, now);
    }
  }

  lemma StopKeepsItems(cfg: Config, s: System, owed: Owed, now: int)
    requires SystemInv(cfg, s)
    ensures SameItems(s.queue, Step(cfg, s, StopPlayback(owed), now).0.queue)
  {
    CancelSessionKeeps(s.queue, cfg.b, owed.sessionId, owed.through);
    StopStepIs(cfg, s, owed, now);
    CancelKeepsItems(s.queue, cfg.b, owed);
  }

  lemma StopStepIs(cfg: Config, s: System, owed: Owed, now: int)
    requires SystemInv(cfg, s) && Ordered(s.queue)
    ensures var q := Step(cfg, s, StopPlayback(owed), now).0.queue;
            q == s.queue || q == CancelSession(s.queue, cfg.b, owed.sessionId, owed.through).0
  {
  }

  lemma CancelKeepsItems(q: Queue, b: Bounds, owed: Owed)
    requires QueueInv(q, b)
    ensures Ordered(q) && SameItems(q, CancelSession(q, b, owed.sessionId, owed.through).0)
  {
    CancelSessionKeeps(q, b, owed.sessionId, owed.through);
  }

  lemma OfferKeepsBound(cfg: Config, s: Studio, client: string, token: Token, ref: string, candidates: seq<Id>,
                        now: int)
    requires StudioInv(cfg, s) && Enabled(s, Offer(client, token, ref, candidates))
    ensures ItemsBound(Step(cfg, s.sys, OfferOp(client, token, ref, candidates), now).0.queue, s.bound)
  {
    SpeakStepIs(cfg, s.sys, OfferOp(client, token, ref, candidates), now);
    EnqueueEffect(s.sys.queue, cfg.b, s.sys.store, client, token, OwnedRef(ref, token), "audio/wav", candidates);
    OwnedFetches(ref, token);
    var q := Step(cfg, s.sys, OfferOp(client, token, ref, candidates), now).0.queue;
    forall id ensures ItemBound(q, s.bound, id) { assert ItemBound(s.sys.queue, s.bound, id); }
  }

  /** Every step keeps it, however they interleave. */
  lemma DoKeeps(cfg: Config, s: Studio, act: Act, now: int)
    requires StudioInv(cfg, s) && Enabled(s, act)
    ensures StudioInv(cfg, Do(cfg, s, act, now))
  {
    match act {
      case Operate(op) =>
        StepInv(cfg, s.sys, op, now);
        OperateKeepsItems(cfg, s.sys, op, now);
        SameItemsBound(s.sys.queue, Step(cfg, s.sys, op, now).0.queue, s.bound);
      case Keep(data, contentType, artifact) => KeepOwned(s.audio, s.bound, cfg.caps, data, contentType, artifact, now);
      case Bind(artifact, token) =>
        BindOwned(s.audio, s.bound, cfg.caps, artifact, token, now);
        MoreBound(s.sys.queue, s.bound, artifact, token);
      case Offer(client, token, ref, candidates) =>
        StepInv(cfg, s.sys, OfferOp(client, token, ref, candidates), now);
        OfferKeepsBound(cfg, s, client, token, ref, candidates, now);
      case Fetch(artifact, session) => FetchOwned(s.audio, s.bound, cfg.caps, artifact, session, now);
    }
  }

  // ---------------------------------------------------------------- the runs

  datatype DoneAct = DoneAct(act: Act, now: int)

  ghost predicate Playable(cfg: Config, s: Studio, acts: seq<DoneAct>)
    requires StudioInv(cfg, s)
    decreases |acts|
  {
    acts == []
    || (Enabled(s, acts[0].act)
        && (DoKeeps(cfg, s, acts[0].act, acts[0].now); Playable(cfg, Do(cfg, s, acts[0].act, acts[0].now), acts[1..])))
  }

  ghost function Play(cfg: Config, s: Studio, acts: seq<DoneAct>): (r: Studio)
    requires StudioInv(cfg, s) && Playable(cfg, s, acts)
    ensures StudioInv(cfg, r)
    decreases |acts|
  {
    if acts == [] then s
    else
      DoKeeps(cfg, s, acts[0].act, acts[0].now);
      Play(cfg, Do(cfg, s, acts[0].act, acts[0].now), acts[1..])
  }

  const FIRST := Studio(INIT, [], map[])

  lemma FirstInv(cfg: Config)
    requires ValidLimits(cfg.lim) && ValidBounds(cfg.b)
    ensures StudioInv(cfg, FIRST)
  {
    InitInv(cfg);
    forall i, j ensures OneId(FIRST.audio, i, j) {}
    forall i ensures OwnerOk(FIRST.audio, FIRST.bound, i) {}
    forall id ensures ItemBound(FIRST.sys.queue, FIRST.bound, id) {}
  }

  /** The session may have the artifact: nobody's turn was ever given it, or a turn of this
      session was. */
  predicate MayHave(bound: map<Id, Token>, artifact: Id, session: Option<Id>) {
    artifact in bound ==> session == Some(bound[artifact].sessionId)
  }

  /** In every state reached by interleaved steps: a fetch succeeds exactly when the artifact
      is kept and not expired, and it was never bound or was bound for the session that
      asks.  So a stranger gets it between storing and binding, and at no other time. */
  lemma FetchedIff(cfg: Config, s: Studio, artifact: Id, session: Option<Id>, now: int)
    requires StudioInv(cfg, s)
    ensures var kept := Artifacts.Prune(s.audio, now - cfg.caps.ttl);
            Artifacts.Consume(s.audio, cfg.caps, artifact, session, now).1.Some?
            <==> (exists i :: 0 <= i < |kept| && kept[i].id == artifact) && MayHave(s.bound, artifact, session)
  {
    var kept := Artifacts.Prune(s.audio, now - cfg.caps.ttl);
    PruneKeepsEntries(s.audio, now - cfg.caps.ttl);
    EntriesOwned(s.audio, kept, s.bound);
    var k := Artifacts.Find(kept, artifact);
    assert OwnerOk(kept, s.bound, k);
  }

  /** After any interleaving from the start: who follows the reference of an item the queue
      knows, and gets its audio, is the item's own session. */
  lemma AudioStaysPrivateInterleaved(cfg: Config, acts: seq<DoneAct>, id: Id, session: Option<Id>, now: int)
    requires ValidLimits(cfg.lim) && ValidBounds(cfg.b) && (FirstInv(cfg); Playable(cfg, FIRST, acts))
    ensures var end := (FirstInv(cfg); Play(cfg, FIRST, acts));
            id in end.sys.queue.items ==>
              var item := end.sys.queue.items[id];
              Artifacts.Consume(end.audio, cfg.caps, Fetched(item.audioRef), session, now).1.Some? ==>
                session == Some(item.token.sessionId)
  {
    FirstInv(cfg);
    var end := Play(cfg, FIRST, acts);
    if id in end.sys.queue.items {
      assert ItemBound(end.sys.queue, end.bound, id);
      FetchedIff(cfg, end, Fetched(end.sys.queue.items[id].audioRef), session, now);
    }
  }

  /** The window does open: stored and not yet bound, the audio goes to whoever asks. */
  lemma StrangerFetches(cfg: Config, data: Artifacts.Bytes, contentType: string, artifact: Id, session: Option<Id>,
                        now: int)
    requires ValidLimits(cfg.lim) && ValidBounds(cfg.b)
    requires Artifacts.Storable(data, cfg.caps) && cfg.caps.maxItems >= 1 && cfg.caps.ttl >= 0
    ensures var acts := [DoneAct(Keep(data, contentType, artifact), now)];
            && StudioInv(cfg, FIRST) && Playable(cfg, FIRST, acts)
            && Artifacts.Consume(Play(cfg, FIRST, acts).audio, cfg.caps, artifact, session, now).1.Some?
  {
    FirstInv(cfg);
    var act := Keep(data, contentType, artifact);
    PlayKeep(cfg, FIRST, data, contentType, artifact, now);
    OnlyArtifact(cfg.caps, Artifacts.Artifact(artifact, contentType, data, now, None), now);
    var s := Do(cfg, FIRST, act, now);
    DoKeeps(cfg, FIRST, act, now);
    FetchedIff(cfg, s, artifact, session, now);
    assert Artifacts.Prune(s.audio, now - cfg.caps.ttl)[0].id == artifact;
  }

  lemma PlayKeep(cfg: Config, s: Studio, data: Artifacts.Bytes, contentType: string, artifact: Id, now: int)
    requires StudioInv(cfg, s) && artifact !in s.bound
    ensures var acts := [DoneAct(Keep(data, contentType, artifact), now)];
            Playable(cfg, s, acts) && Play(cfg, s, acts) == Do(cfg, s, acts[0].act, now)
  {
    var acts := [DoneAct(Keep(data, contentType, artifact), now)];
    DoKeeps(cfg, s, acts[0].act, now);
    assert acts[1..] == [];
  }

  lemma OnlyArtifact(caps: Artifacts.Caps, a: Artifacts.Artifact, now: int)
    requires Artifacts.Storable(a.data, caps) && caps.maxItems >= 1 && caps.ttl >= 0 && a.createdAt == now
             && a.owner.None?
    ensures Artifacts.Put([], caps, a.data, a.contentType, a.id, now).0 == [a]
            && Artifacts.Prune([a], now - caps.ttl) == [a]
  {
    assert [a][1..] == [] && [a][..0] == [];
    assert Artifacts.TotalBytes([a]) == |a.data|;
    assert Artifacts.Artifact(a.id, a.contentType, a.data, now, None) == a && Artifacts.Insert([], a) == [a];
    assert Artifacts.Put([], caps, a.data, a.contentType, a.id, now).0 == Artifacts.Evict([a], caps);
  }

  // -------------------------------------------------- the handler as its steps

  /** Queue the audio, and mark the turn if that gave an item. */
  function OfferActs(cfg: Config, s: Studio, client: string, token: Token, ref: string, candidates: seq<Id>,
                     now: int): Studio
    requires SystemInv(cfg, s.sys) && FreshIds(s.sys, OfferOp(client, token, ref, candidates))
  {
    StepInv(cfg, s.sys, OfferOp(client, token, ref, candidates), now);
    var offered := Offered(cfg, s, client, token, ref, candidates, now);
    var item := Step(cfg, s.sys, OfferOp(client, token, ref, candidates), now).1.item;
    if item.Raised? || item.value.None? then offered
    else Do(cfg, offered, Operate(Move(token, PlaybackQueued, None)), now)
  }

  /** What `_speak_chat_response` does for an accepted turn with audio, step by step. */
  function SpeakActs(cfg: Config, s: Studio, token: Token, ref: string, candidates: seq<Id>, now: int): Studio
    requires SystemInv(cfg, s.sys) && Accepts(s.sys.store, token)
    requires FreshIds(s.sys, OfferOp(s.sys.store.sessions[token.sessionId].clientId, token, ref, candidates))
  {
    var s1 := Do(cfg, s, Bind(AfterSlash(ref), token), now);
    if AfterSlash(ref) !in s1.bound then s1
    else OfferActs(cfg, s1, s.sys.store.sessions[token.sessionId].clientId, token, ref, candidates, now)
  }

  function StudioWorld(s: Studio): World {
    World(s.sys.store, s.sys.queue, s.audio)
  }

  /** The handler as a whole is these steps with nothing in between. */
  lemma SpeakActsIsHandler(cfg: Config, s: Studio, token: Token, voice: Voice, candidates: seq<Id>, now: int)
    requires SystemInv(cfg, s.sys) && Accepts(s.sys.store, token) && HasAudio(voice)
    requires AfterSlash(voice.audioRef.value) !in s.bound
    requires FreshIds(s.sys,
                      OfferOp(s.sys.store.sessions[token.sessionId].clientId, token, voice.audioRef.value, candidates))
    ensures StudioWorld(SpeakActs(cfg, s, token, voice.audioRef.value, candidates, now))
            == SpeakChat(cfg, StudioWorld(s), token, voice, candidates, now).0
  {
    var ref, client := voice.audioRef.value, s.sys.store.sessions[token.sessionId].clientId;
    var s1 := Do(cfg, s, Bind(AfterSlash(ref), token), now);
    if AfterSlash(ref) in s1.bound { OfferActsIsQueueing(cfg, s1, client, token, ref, candidates, now); }
  }

  lemma OfferActsIsQueueing(cfg: Config, s: Studio, client: string, token: Token, ref: string, candidates: seq<Id>,
                            now: int)
    requires SystemInv(cfg, s.sys) && Accepts(s.sys.store, token)
             && s.sys.store.sessions[token.sessionId].clientId == client
    requires FreshIds(s.sys, OfferOp(client, token, ref, candidates))
    ensures StudioWorld(OfferActs(cfg, s, client, token, ref, candidates, now))
            == QueueSpeech(cfg, StudioWorld(s), token, OwnedRef(ref, token), candidates, now).0
  {
    StepInv(cfg, s.sys, OfferOp(client, token, ref, candidates), now);
    SpeakAnswers(cfg, s.sys, OfferOp(client, token, ref, candidates), now);
    OfferedWorld(cfg, s, client, token, ref, candidates, now);
    MarkedWorld(cfg, Offered(cfg, s, client, token, ref, candidates, now), token, now);
  }

  lemma OfferedWorld(cfg: Config, s: Studio, client: string, token: Token, ref: string, candidates: seq<Id>, now: int)
    requires SystemInv(cfg, s.sys) && FreshIds(s.sys, OfferOp(client, token, ref, candidates))
    ensures var w := StudioWorld(s);
            StudioWorld(Offered(cfg, s, client, token, ref, candidates, now))
            == w.(queue := Enqueue(w.queue, cfg.b, w.store, client, token, OwnedRef(ref, token), "audio/wav",
                                   candidates).0)
  {
    SpeakStepIs(cfg, s.sys, OfferOp(client, token, ref, candidates), now);
    SpeakAnswers(cfg, s.sys, OfferOp(client, token, ref, candidates), now);
  }

  lemma MarkedWorld(cfg: Config, s: Studio, token: Token, now: int)
    requires SystemInv(cfg, s.sys)
    ensures var w := StudioWorld(s);
            StudioWorld(Do(cfg, s, Operate(Move(token, PlaybackQueued, None)), now))
            == w.(store := Transition(w.store, token, PlaybackQueued, None, now).0)
  {
    MoveStepIs(cfg, s.sys, token, PlaybackQueued, None, now);
  }

  lemma SpeakAnswers(cfg: Config, s: System, op: Op, now: int)
    requires SystemInv(cfg, s) && op.Speak?
    ensures var (s', answer) := Step(cfg, s, op, now);
            && s'.store == s.store && answer.Spoken?
            && answer.item
               == Enqueue(s.queue, cfg.b, s.store, op.clientId, op.token, op.audioRef, op.contentType, op.candidates).1
  {
  }
}
