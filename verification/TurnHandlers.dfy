/** The request handlers that glue the session store, the playback queue and the audio
    artifacts together.  Here each handler is one atomic step; `TurnProtocol` is the finer
    view in which its sub-steps interleave. */
module TurnHandlers {
  import opened Collections
  import opened SessionContexts
  import opened Sessions
  import opened Playback
  import opened TurnProtocol

  datatype World = World(store: Store, queue: Queue, audio: seq<Artifacts.Artifact>)

  /** What speech synthesis came back with: an exception, or a result that may refer to
      the audio it stored. */
  datatype Voice = VoiceRaised | Voice(ok: bool, spoken: bool, audioRef: Option<string>)

  datatype Spoke = SpokeRaised | Spoke(ok: bool, playbackId: Option<Id>)

  datatype Reply =
    | Fine                    // the handler returned normally
    | Conflict                // it refused the request
    | HandlerRaised           // an exception of a store operation escaped

  datatype Request =
    | NewSession(clientId: string, context: Option<SessionContext>, candidates: seq<Id>)
    | BeginChat(sessionId: Id, origin: Origin, message: string, candidates: seq<Id>)
    | BeginCapture(sessionId: Id, candidates: seq<Id>)
    | Transcribed(token: Token, message: string)
    | Fail(token: Token, code: string)
    | Confirmed(token: Token)
    | FinishTurn(token: Token, message: string, speak: bool, voice: Voice, candidates: seq<Id>)
    | Preview(sessionId: Id, voice: Voice, candidates: seq<Id>, itemCandidates: seq<Id>)
    | NextPlayback(clientId: string)
    | PlaybackAck(ack: Ack)
    | CancelRequest(sessionId: Id)
    | CloseRequest(sessionId: Id)
    | ContextRequest(sessionId: Id, changes: Changes, clearHistory: bool)
    | PendingRequest(sessionId: Id, request: Option<string>)
    | StoreAudio(data: Artifacts.Bytes, contentType: string, artifact: Id)
    | FetchAudio(artifact: Id, session: Option<Id>)

  predicate HasAudio(voice: Voice) {
    voice.Voice? && voice.ok && voice.spoken && voice.audioRef.Some? && voice.audioRef.value != ""
  }

  function OwnedRef(ref: string, token: Token): string {
    ref + "?session_id=" + token.sessionId
  }

  /** The artifact a reference is to: what follows the last slash. */
  function AfterSlash(ref: string): (id: string)
    decreases |ref|
  {
    if '/' in ref then AfterSlash(ref[1..]) else ref
  }

  function OwnerOf(token: Token): Artifacts.Owner {
    Artifacts.Owner(token.sessionId, token.turnId, token.generation)
  }

  function SpeakChat(cfg: Config, w: World, token: Token, voice: Voice, candidates: seq<Id>, now: int): (World, Spoke) {
    if voice.VoiceRaised? then (w, SpokeRaised)
    else if !HasAudio(voice) || !Accepts(w.store, token) then (w, Spoke(voice.ok, None))
    else
      var (audio, bound) := Artifacts.Bind(w.audio, cfg.caps, AfterSlash(voice.audioRef.value), OwnerOf(token), now);
      if bound then QueueSpeech(cfg, w.(audio := audio), token, OwnedRef(voice.audioRef.value, token), candidates, now)
      else (w.(audio := audio), Spoke(true, None))
  }

  function QueueSpeech(cfg: Config, w: World, token: Token, ref: string, candidates: seq<Id>, now: int): (World, Spoke)
    requires Accepts(w.store, token)
  {
    var client := w.store.sessions[token.sessionId].clientId;
    var (q, item) := Enqueue(w.queue, cfg.b, w.store, client, token, ref, "audio/wav", candidates);
    if item.Raised? then (w.(queue := q), SpokeRaised)
    else if item.value.None? then (w.(queue := q), Spoke(true, None))
    else
      var (st, moved) := Transition(w.store, token, PlaybackQueued, None, now);
      (w.(store := st, queue := q), if moved.Raised? then SpokeRaised else Spoke(true, item.value))
  }

  /** `_fail_chat_turn` and every other guarded move of a turn. */
  function MoveIfCurrent(w: World, token: Token, stage: Stage, code: Option<string>, now: int): (World, Reply) {
    if !Accepts(w.store, token) then (w, Fine)
    else
      var (st, moved) := Transition(w.store, token, stage, code, now);
      (w.(store := st), if moved.Raised? then HandlerRaised else Fine)
  }

  /** What follows once the turn is synthesizing. */
  function Conclude(cfg: Config, w: World, token: Token, voice: Voice, candidates: seq<Id>, now: int): (World, Reply) {
    var (w1, spoke) := SpeakChat(cfg, w, token, voice, candidates, now);
    if spoke.SpokeRaised? then MoveIfCurrent(w1, token, Stage.Failed, Some("tts_exception"), now)
    else if spoke.playbackId.Some? then (w1, Fine)
    else if spoke.ok then MoveIfCurrent(w1, token, Stage.Completed, None, now)
    else MoveIfCurrent(w1, token, Stage.Failed, Some("tts_failed"), now)
  }

  function Finish(cfg: Config, w: World, token: Token, message: string, speak: bool, voice: Voice,
                  candidates: seq<Id>, now: int): (World, Reply)
    requires ValidLimits(cfg.lim)
  {
    var (st, committed) := CommitText(w.store, cfg.lim, token, Assistant, message, now);
    if committed.Raised? then (w, HandlerRaised)
    else if !committed.value then (w, Conflict)
    else AfterCommit(cfg, w.(store := st), token, speak, voice, candidates, now)
  }

  function AfterCommit(cfg: Config, w: World, token: Token, speak: bool, voice: Voice, candidates: seq<Id>,
                       now: int): (World, Reply) {
    var (st, moved) := Transition(w.store, token, if speak then Synthesizing else Stage.Completed, None, now);
    if moved.Raised? then (w.(store := st), HandlerRaised)
    else if speak then Conclude(cfg, w.(store := st), token, voice, candidates, now)
    else (w.(store := st), Fine)
  }

  function AckStage(state: PlaybackState): Option<Stage> {
    match state
    case Started => Some(Stage.Playing)
    case Completed => Some(Stage.Completed)
    case Failed => Some(Stage.Failed)
    case _ => None
  }

  function AckCode(ack: Ack): Option<string> {
    if !ack.state.Failed? then None
    else if ack.failure.None? || ack.failure.value == "" then Some("playback_failed")
    else ack.failure
  }

  function Acknowledged(cfg: Config, w: World, ack: Ack, now: int): (World, Reply) {
    if ack.playbackId !in w.queue.items then (w, Conflict)
    else
      var before := w.queue.items[ack.playbackId];
      var (q, accepted) := Acknowledge(w.queue, cfg.b, w.store, ack);
      if !accepted then (w.(queue := q), Conflict)
      else if ack.playbackId !in q.items then (w.(queue := q), HandlerRaised)   // the second lookup raises
      else
        var stage := AckStage(ack.state);
        if before.state == ack.state || stage.None? then (w.(queue := q), Fine)
        else MoveIfCurrent(w.(queue := q), q.items[ack.playbackId].token, stage.value, AckCode(ack), now)
  }

  /** The playback half of a cancellation. */
  function Silenced(cfg: Config, w: World, id: Id, through: Option<int>): World
    requires ValidBounds(cfg.b) && Ordered(w.queue)
  {
    w.(queue := CancelSession(w.queue, cfg.b, id, through).0)
  }

  function CancelSessionTurns(w: World, id: Id, now: int): (World, Outcome<nat, Error>) {
    var (st, generation) := Cancel(w.store, id, None, now);
    (w.(store := st), generation)
  }

  function AfterCancel(cfg: Config, w: World, id: Id, generation: Outcome<nat, Error>): (World, Reply)
    requires ValidBounds(cfg.b) && Ordered(w.queue)
  {
    if generation.Raised? then (w, Conflict) else (Silenced(cfg, w, id, Some(generation.value - 1)), Fine)
  }

  /** Raise the generation first, then stop playback through the generation before. */
  function CancelAll(cfg: Config, w: World, id: Id, now: int): (World, Reply)
    requires ValidBounds(cfg.b) && Ordered(w.queue)
  {
    var (w1, generation) := CancelSessionTurns(w, id, now);
    AfterCancel(cfg, w1, id, generation)
  }

  function CloseAll(cfg: Config, w: World, id: Id, now: int): (World, Reply)
    requires ValidBounds(cfg.b) && Ordered(w.queue)
  {
    var (st, done) := CloseSession(w.store, id, now);
    if done.Raised? then (w, Conflict)
    else (Silenced(cfg, w.(store := st), id, None), Fine)
  }

  /** A preview that produced no playback fails its turn. */
  function PreviewOutcome(w: World, token: Token, spoke: Spoke, now: int): (World, Reply) {
    if spoke.SpokeRaised? then (MoveIfCurrent(w, token, Stage.Failed, Some("tts_exception"), now).0, Conflict)
    else if !spoke.ok then (MoveIfCurrent(w, token, Stage.Failed, Some("tts_failed"), now).0, Conflict)
    else if spoke.playbackId.None?
      then (MoveIfCurrent(w, token, Stage.Failed, Some("playback_not_queued"), now).0, Conflict)
    else (w, Fine)
  }

  function Previewed(cfg: Config, w: World, sessionId: Id, voice: Voice, candidates: seq<Id>,
                     itemCandidates: seq<Id>, now: int): (World, Reply)
    requires ValidLimits(cfg.lim)
  {
    var (st, begun) := BeginTurn(w.store, cfg.lim, sessionId, Text, None, Some(Synthesizing), candidates, now);
    if begun.Raised? then (w.(store := st), Conflict)
    else
      var (w1, spoke) := SpeakChat(cfg, w.(store := st), begun.value, voice, itemCandidates, now);
      PreviewOutcome(w1, begun.value, spoke, now)
  }

  /** A transcript was recognised: store it, then think. */
  function Heard(cfg: Config, w: World, token: Token, message: string, now: int): (World, Reply)
    requires ValidLimits(cfg.lim)
  {
    var (st1, stored) := CommitText(w.store, cfg.lim, token, User, message, now);
    if stored.Raised? then (w, HandlerRaised)
    else if !stored.value then (w, Conflict)
    else
      var (st2, moved) := Transition(st1, token, Thinking, None, now);
      (w.(store := st2), if moved.Raised? then HandlerRaised else Fine)
  }

  function Refuse<T>(w: World, st: Store, out: Outcome<T, Error>): (World, Reply) {
    (w.(store := st), if out.Raised? then Conflict else Fine)
  }

  function Handle(cfg: Config, w: World, r: Request, now: int): (World, Reply)
    requires StoreOk(cfg.lim, w.store) && ValidBounds(cfg.b) && Ordered(w.queue)
  {
    match r
    case NewSession(clientId, context, candidates) =>
      var (st, out) := CreateSession(w.store, cfg.lim, clientId, context, candidates, now);
      Refuse(w, st, out)
    case BeginChat(sessionId, origin, message, candidates) =>
      var (st, out) := BeginTurn(w.store, cfg.lim, sessionId, origin, Some(message), None, candidates, now);
      Refuse(w, st, out)
    case BeginCapture(sessionId, candidates) =>
      var (st, out) := BeginTurn(w.store, cfg.lim, sessionId, Origin.Voice, None, Some(Transcribing), candidates, now);
      Refuse(w, st, out)
    case Transcribed(token, message) => Heard(cfg, w, token, message, now)
    case Fail(token, code) => MoveIfCurrent(w, token, Stage.Failed, Some(code), now)
    case Confirmed(token) => MoveIfCurrent(w, token, Stage.Completed, None, now)
    case FinishTurn(token, message, speak, voice, candidates) =>
      Finish(cfg, w, token, message, speak, voice, candidates, now)
    case Preview(sessionId, voice, candidates, itemCandidates) =>
      Previewed(cfg, w, sessionId, voice, candidates, itemCandidates, now)
    case NextPlayback(clientId) => (w.(queue := NextCommand(w.queue, cfg.b, w.store, clientId).0), Fine)
    case PlaybackAck(ack) => Acknowledged(cfg, w, ack, now)
    case CancelRequest(sessionId) => CancelAll(cfg, w, sessionId, now)
    case CloseRequest(sessionId) => CloseAll(cfg, w, sessionId, now)
    case ContextRequest(sessionId, changes, clear) =>
      var (st, out) := UpdateContext(w.store, sessionId, changes, clear, now);
      Refuse(w, st, out)
    case PendingRequest(sessionId, request) =>
      var (st, out) := SetPending(w.store, cfg.lim, sessionId, request, now);
      Refuse(w, st, out)
    case StoreAudio(data, contentType, artifact) =>
      var (audio, out) := Artifacts.Put(w.audio, cfg.caps, data, contentType, artifact, now);
      (w.(audio := audio), if out.Raised? then HandlerRaised else Fine)
    case FetchAudio(artifact, session) =>
      var (audio, out) := Artifacts.Consume(w.audio, cfg.caps, artifact, session, now);
      (w.(audio := audio), if out.None? then Conflict else Fine)
  }

  /** The turn ids a request may hand out. */
  function TurnCandidates(r: Request): seq<Id> {
    match r
    case BeginChat(_, _, _, candidates) => candidates
    case BeginCapture(_, candidates) => candidates
    case Preview(_, _, candidates, _) => candidates
    case _ => []
  }
}
