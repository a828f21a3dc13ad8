/** The request handlers as the program runs them: calls made for effect on the shared
    session store, playback queue and audio artifacts.  Every method is proved to leave
    the three in the state the function of `TurnHandlers` says. */
module Brains {
  import opened Collections
  import opened Sessions
  import opened SessionStores
  import opened Playback
  import opened PlaybackQueues
  import opened TurnProtocol
  import opened TurnHandlers
  import opened ArtifactStores

  class Brain {
    const store: SessionStore
    const playback: PlaybackQueue
    const audio: AudioArtifactStore

    constructor (store: SessionStore, playback: PlaybackQueue, audio: AudioArtifactStore)
      ensures this.store == store && this.playback == playback && this.audio == audio
    {
      this.store, this.playback, this.audio := store, playback, audio;
    }

    ghost function Current(): World
      reads this, store, store.Records(), playback, audio
    {
      World(store.Value(), playback.State(), audio.items)
    }

    ghost function Setup(): Config
      reads this
    {
      Config(store.lim, playback.b, audio.caps)
    }

    ghost predicate Valid()
      reads this, store, store.Records(), playback
    {
      playback.authority == store && store.Valid()
    }

    method MoveIfCurrent(token: Token, stage: Stage, code: Option<string>, now: int) returns (reply: Reply)
      requires Valid()
      modifies store.Records()
      ensures Valid() && (Current(), reply) == TurnHandlers.MoveIfCurrent(old(Current()), token, stage, code, now)
    {
      var current := store.Accepts(token);
      if !current { return Fine; }
      var moved := store.Transition(token, stage, code, now);
      return if moved.Raised? then HandlerRaised else Fine;
    }

    method SpeakChatResponse(token: Token, voice: Voice, candidates: seq<Id>, now: int) returns (spoke: Spoke)
      requires Valid()
      modifies store.Records(), playback, audio
      ensures Valid() && (Current(), spoke) == SpeakChat(Setup(), old(Current()), token, voice, candidates, now)
    {
      if voice.VoiceRaised? { return SpokeRaised; }
      var current := store.Accepts(token);
      if !HasAudio(voice) || !current { return Spoke(voice.ok, None); }
      var bound := audio.Bind(AfterSlash(voice.audioRef.value), OwnerOf(token), now);
      if !bound { return Spoke(true, None); }
      spoke := QueueSpeech(token, OwnedRef(voice.audioRef.value, token), candidates, now);
    }

    method QueueSpeech(token: Token, ref: string, candidates: seq<Id>, now: int) returns (spoke: Spoke)
      requires Valid() && Sessions.Accepts(store.Value(), token)
      modifies store.Records(), playback
      ensures Valid()
      ensures (Current(), spoke) == TurnHandlers.QueueSpeech(Setup(), old(Current()), token, ref, candidates, now)
    {
      var client := store.sessions[token.sessionId].clientId;
      var item := playback.Enqueue(client, token, ref, "audio/wav", candidates);
      if item.Raised? { return SpokeRaised; }
      if item.value.None? { return Spoke(true, None); }
      var moved := store.Transition(token, PlaybackQueued, None, now);
      return if moved.Raised? then SpokeRaised else Spoke(true, item.value);
    }

    method Conclude(token: Token, voice: Voice, candidates: seq<Id>, now: int) returns (reply: Reply)
      requires Valid()
      modifies store.Records(), playback, audio
      ensures Valid()
              && (Current(), reply) == TurnHandlers.Conclude(Setup(), old(Current()), token, voice, candidates, now)
    {
      var spoke := SpeakChatResponse(token, voice, candidates, now);
      if spoke.SpokeRaised? {
        reply := MoveIfCurrent(token, Stage.Failed, Some("tts_exception"), now);
      } else if spoke.playbackId.Some? {
        reply := Fine;
      } else if spoke.ok {
        reply := MoveIfCurrent(token, Stage.Completed, None, now);
      } else {
        reply := MoveIfCurrent(token, Stage.Failed, Some("tts_failed"), now);
      }
    }

    method AfterCommit(token: Token, speak: bool, voice: Voice, candidates: seq<Id>, now: int) returns (reply: Reply)
      requires Valid()
      modifies store.Records(), playback, audio
      ensures Valid()
      ensures (Current(), reply)
              == TurnHandlers.AfterCommit(Setup(), old(Current()), token, speak, voice, candidates, now)
    {
      var moved := store.Transition(token, if speak then Synthesizing else Stage.Completed, None, now);
      if moved.Raised? { return HandlerRaised; }
      if !speak { return Fine; }
      reply := Conclude(token, voice, candidates, now);
    }

    /** Commit the reply's text, then end the turn or queue its speech. */
    method FinishChatTurn(token: Token, message: string, speak: bool, voice: Voice, candidates: seq<Id>, now: int)
      returns (reply: Reply)
      requires Valid()
      modifies store.Records(), playback, audio
      ensures Valid()
      ensures (Current(), reply) == Finish(Setup(), old(Current()), token, message, speak, voice, candidates, now)
    {
      var committed := store.CommitText(token, Assistant, message, now);
      if committed.Raised? { return HandlerRaised; }
      if !committed.value { return Conflict; }
      reply := AfterCommit(token, speak, voice, candidates, now);
    }

    method PlaybackAcked(ack: Ack, now: int) returns (reply: Reply)
      requires Valid()
      modifies store.Records(), playback
      ensures Valid() && (Current(), reply) == Acknowledged(Setup(), old(Current()), ack, now)
    {
      if ack.playbackId !in playback.items { return Conflict; }
      var before := playback.items[ack.playbackId];
      var accepted := playback.Acknowledge(ack);
      if !accepted { return Conflict; }
      if ack.playbackId !in playback.items { return HandlerRaised; }
      var item := playback.items[ack.playbackId];
      var stage := AckStage(ack.state);
      if before.state == ack.state || stage.None? { return Fine; }
      reply := MoveIfCurrent(item.token, stage.value, AckCode(ack), now);
    }

    method StopPlayback(id: Id, through: Option<int>)
      requires Valid() && ValidBounds(playback.b) && Ordered(playback.State())
      modifies playback
      ensures Valid()
      ensures Current() == Silenced(Setup(), old(Current()), id, through)
    {
      var _ := playback.CancelSession(id, through);
    }

    method CancelSession(id: Id, now: int) returns (reply: Reply)
      requires Valid() && ValidBounds(playback.b) && Ordered(playback.State())
      modifies store.Records(), playback
      ensures Valid()
      ensures (Current(), reply) == CancelAll(Setup(), old(Current()), id, now)
    {
      var generation := CancelSessionTurns(id, now);
      reply := AfterCancel(id, generation);
    }

    method AfterCancel(id: Id, generation: Outcome<nat, Error>) returns (reply: Reply)
      requires Valid() && ValidBounds(playback.b) && Ordered(playback.State())
      modifies playback
      ensures Valid()
      ensures (Current(), reply) == TurnHandlers.AfterCancel(Setup(), old(Current()), id, generation)
    {
      if generation.Raised? { return Conflict; }
      StopPlayback(id, Some(generation.value - 1));
      return Fine;
    }

    method CancelSessionTurns(id: Id, now: int) returns (generation: Outcome<nat, Error>)
      requires Valid()
      modifies store.Records()
      ensures Valid()
      ensures (Current(), generation) == TurnHandlers.CancelSessionTurns(old(Current()), id, now)
    {
      generation := store.Cancel(id, None, now);
    }

    method CloseSession(id: Id, now: int) returns (reply: Reply)
      requires Valid() && ValidBounds(playback.b) && Ordered(playback.State())
      modifies store.Records(), playback
      ensures Valid() && (Current(), reply) == CloseAll(Setup(), old(Current()), id, now)
    {
      var done := store.CloseSession(id, now);
      if done.Raised? { return Conflict; }
      StopPlayback(id, None);
      return Fine;
    }

    method VoicePreview(sessionId: Id, voice: Voice, candidates: seq<Id>, itemCandidates: seq<Id>, now: int)
      returns (reply: Reply)
      requires Valid()
      modifies store.Records(), playback, audio
      ensures Valid()
      ensures (Current(), reply)
              == Previewed(Setup(), old(Current()), sessionId, voice, candidates, itemCandidates, now)
    {
      var begun := store.BeginTurn(sessionId, Text, None, Some(Synthesizing), candidates, now);
      if begun.Raised? { return Conflict; }
      var spoke := SpeakChatResponse(begun.value, voice, itemCandidates, now);
      if spoke.Spoke? && spoke.ok && spoke.playbackId.Some? { return Fine; }
      var code := if spoke.SpokeRaised? then "tts_exception" else if !spoke.ok then "tts_failed"
        else "playback_not_queued";
      var _ := MoveIfCurrent(begun.value, Stage.Failed, Some(code), now);
      return Conflict;
    }

    method Transcribed(token: Token, message: string, now: int) returns (reply: Reply)
      requires Valid()
      modifies store.Records()
      ensures Valid() && (Current(), reply) == Heard(Setup(), old(Current()), token, message, now)
    {
      var stored := store.CommitText(token, User, message, now);
      if stored.Raised? { return HandlerRaised; }
      if !stored.value { return Conflict; }
      var moved := store.Transition(token, Thinking, None, now);
      return if moved.Raised? then HandlerRaised else Fine;
    }
  }
}
