/** How each request ends: the stage and the code its turn is left in, for everything
    that speech, the queue and the audio store can answer. */
module HandlerOutcomes {
  import opened Collections
  import opened Sessions
  import opened SessionEffects
  import opened Playback
  import PlaybackOutcomes
  import opened TurnProtocol
  import opened TurnHandlers

  /** The token is current, and its turn is in this stage. */
  ghost predicate CurrentIn(st: Store, token: Token, stage: Stage) {
    Current(st, token) && NewestTurn(st, token.sessionId).stage == stage
  }

  ghost function NewestTurn(st: Store, id: Id): Turn
    requires id in st.sessions && st.sessions[id].turns != []
  {
    st.sessions[id].turns[|st.sessions[id].turns| - 1]
  }

  /** From `st` to `st'` the token's turn took this stage and code; nothing else of the
      store changed but the session's history and time. */
  ghost predicate EndsIn(st: Store, token: Token, st': Store, stage: Stage, code: Option<string>) {
    && Current(st, token) && OnlySession(st, token.sessionId, st')
    && var (s, s') := (st.sessions[token.sessionId], st'.sessions[token.sessionId]);
    && SameElse(s, s') && s'.generation == s.generation
    && s'.turns == s.turns[|s.turns| - 1 := NewestTurn(st, token.sessionId).(stage := stage, failure := code)]
  }

  ghost predicate SameHistory(st: Store, id: Id, st': Store) {
    id in st.sessions && id in st'.sessions && st'.sessions[id].history == st.sessions[id].history
  }

  /** A move that is legal is made. */
  lemma TransitionMade(lim: Limits, st: Store, token: Token, stage: Stage, code: Option<string>, now: int)
    requires StoreOk(lim, st) && Current(st, token) && Legal(NewestTurn(st, token.sessionId).stage, stage)
    ensures var (st', out) := Transition(st, token, stage, code, now);
            out == Ok(true) && EndsIn(st, token, st', stage, code) && SameHistory(st, token.sessionId, st')
  {
    CurrentIff(lim, st, token);
    LegalClimbs(NewestTurn(st, token.sessionId).stage, stage);
  }

  lemma MoveMade(lim: Limits, w: World, token: Token, stage: Stage, code: Option<string>, now: int)
    requires StoreOk(lim, w.store) && Current(w.store, token)
    requires Legal(NewestTurn(w.store, token.sessionId).stage, stage)
    ensures var (w', reply) := MoveIfCurrent(w, token, stage, code, now);
            && reply == Fine && w' == w.(store := w'.store)
            && EndsIn(w.store, token, w'.store, stage, code) && SameHistory(w.store, token.sessionId, w'.store)
  {
    CurrentIff(lim, w.store, token);
    TransitionMade(lim, w.store, token, stage, code, now);
  }

  // ------------------------------------------------------------ after the text

  /** What the artifact store says to the reference the voice came back with. */
  ghost function Bound(cfg: Config, w: World, token: Token, voice: Voice, now: int): bool
    requires voice.Voice? && voice.audioRef.Some?
  {
    Artifacts.Bind(w.audio, cfg.caps, AfterSlash(voice.audioRef.value),
                   Artifacts.Owner(token.sessionId, token.turnId, token.generation), now).1
  }

  /** What the queue says to the audio, named together with the session it is for. */
  ghost function Queueing(cfg: Config, w: World, token: Token, voice: Voice,
                          candidates: seq<Id>): Outcome<Option<Id>, Fault>
    requires voice.Voice? && voice.audioRef.Some? && token.sessionId in w.store.sessions
  {
    Enqueue(w.queue, cfg.b, w.store, w.store.sessions[token.sessionId].clientId, token,
            voice.audioRef.value + "?session_id=" + token.sessionId, "audio/wav", candidates).1
  }

  /** The voice stored audio that can be spoken. */
  ghost predicate Audible(voice: Voice) {
    voice.Voice? && voice.ok && voice.spoken && voice.audioRef.Some? && voice.audioRef.value != ""
  }

  /** The stage and code speech leads to. */
  ghost predicate SpokenEnd(cfg: Config, w: World, token: Token, voice: Voice, candidates: seq<Id>, now: int,
                            stage: Stage, code: Option<string>)
    requires token.sessionId in w.store.sessions
  {
    && (voice.VoiceRaised? ==> stage == Stage.Failed && code == Some("tts_exception"))
    && (voice.Voice? && !voice.ok ==> stage == Stage.Failed && code == Some("tts_failed"))
    && (voice.Voice? && voice.ok && !Audible(voice) ==> stage == Stage.Completed && code.None?)
    && (Audible(voice) && !Bound(cfg, w, token, voice, now) ==> stage == Stage.Completed && code.None?)
    && (Audible(voice) && Bound(cfg, w, token, voice, now) ==>
          match Queueing(cfg, w, token, voice, candidates)
          case Raised(_) => stage == Stage.Failed && code == Some("tts_exception")
          case Ok(None) => stage == Stage.Completed && code.None?
          case Ok(Some(_)) => stage == PlaybackQueued && code.None?)
  }

  /** What speech leaves behind: an artifact that can be spoken is bound to the turn, and one
      that is bound is handed to the queue, named with its session, for the session's client;
      nothing else of audio and queue changes, whatever raises.  The turn waits for playback
      when an item was queued, and then only. */
  lemma SpeechLeaves(cfg: Config, w: World, token: Token, voice: Voice, candidates: seq<Id>, now: int)
    requires Accepts(w.store, token)
    ensures var (w', spoke) := SpeakChat(cfg, w, token, voice, candidates, now);
            if !Audible(voice) then w' == w && (voice.Voice? ==> spoke == Spoke(voice.ok, None))
            else
              && w'.audio == Artifacts.Bind(w.audio, cfg.caps, AfterSlash(voice.audioRef.value),
                                            Artifacts.Owner(token.sessionId, token.turnId, token.generation), now).0
              && if !Bound(cfg, w, token, voice, now) then
                   w'.queue == w.queue && w'.store == w.store && spoke == Spoke(true, None)
                 else
                   && w'.queue == Enqueue(w.queue, cfg.b, w.store, w.store.sessions[token.sessionId].clientId, token,
                                          voice.audioRef.value + "?session_id=" + token.sessionId, "audio/wav",
                                          candidates).0
                   && (Queueing(cfg, w, token, voice, candidates).Raised? ==> w'.store == w.store && spoke.SpokeRaised?)
                   && (Queueing(cfg, w, token, voice, candidates) == Ok(None) ==>
                         w'.store == w.store && spoke == Spoke(true, None))
                   && (Queueing(cfg, w, token, voice, candidates).Ok?
                       && Queueing(cfg, w, token, voice, candidates).value.Some? ==>
                         w'.store == Transition(w.store, token, PlaybackQueued, None, now).0)
  {
  }

  /** Work that is no longer current leaves nothing behind. */
  lemma LateSpeech(cfg: Config, w: World, token: Token, voice: Voice, candidates: seq<Id>, now: int)
    requires !Accepts(w.store, token)
    ensures SpeakChat(cfg, w, token, voice, candidates, now).0 == w
  {
  }

  /** Concluding a turn adds nothing to what speech did to audio and queue. */
  lemma ConcludeLeaves(cfg: Config, w: World, token: Token, voice: Voice, candidates: seq<Id>, now: int)
    ensures var (w', w1) := (Conclude(cfg, w, token, voice, candidates, now).0,
                             SpeakChat(cfg, w, token, voice, candidates, now).0);
            w'.audio == w1.audio && w'.queue == w1.queue
  {
  }

  /** The last part of a reference, after any slash, names the artifact. */
  lemma {:induction false} AfterSlashExactly(ref: string) returns (i: nat)
    ensures i <= |ref| && AfterSlash(ref) == ref[i..] && '/' !in ref[i..] && (i == 0 || ref[i - 1] == '/')
  {
    if '/' in ref {
      i := AfterSlashExactly(ref[1..]);
      if i == 0 {
        assert ref == [ref[0]] + ref[1..];
      }
      i := i + 1;
    } else {
      i := 0;
    }
  }

  /** Speaking a turn that synthesizes: it waits for playback exactly when the audio was
      bound and queued, fails when speech or the queue raised or speech did not work, and
      is otherwise completed without sound. */
  lemma ConcludeExactly(cfg: Config, w: World, token: Token, voice: Voice, candidates: seq<Id>, now: int, stage: Stage,
                        code: Option<string>)
    requires StoreOk(cfg.lim, w.store) && CurrentIn(w.store, token, Synthesizing)
    requires SpokenEnd(cfg, w, token, voice, candidates, now, stage, code)
    ensures var (w', reply) := Conclude(cfg, w, token, voice, candidates, now);
            reply == Fine && EndsIn(w.store, token, w'.store, stage, code)
            && SameHistory(w.store, token.sessionId, w'.store)
  {
    CurrentIff(cfg.lim, w.store, token);
    if !Audible(voice) || !Bound(cfg, w, token, voice, now) {
      var w1 := SpeakChat(cfg, w, token, voice, candidates, now).0;
      assert w1.store == w.store;
      MoveMade(cfg.lim, w1, token, stage, code, now);
    } else {
      QueuedExactly(cfg, w, token, voice, candidates, now, stage, code);
    }
  }

  lemma QueuedExactly(cfg: Config, w: World, token: Token, voice: Voice, candidates: seq<Id>, now: int, stage: Stage,
                      code: Option<string>)
    requires StoreOk(cfg.lim, w.store) && CurrentIn(w.store, token, Synthesizing)
    requires SpokenEnd(cfg, w, token, voice, candidates, now, stage, code)
    requires Audible(voice) && Bound(cfg, w, token, voice, now)
    ensures var (w', reply) := Conclude(cfg, w, token, voice, candidates, now);
            reply == Fine && EndsIn(w.store, token, w'.store, stage, code)
            && SameHistory(w.store, token.sessionId, w'.store)
  {
    CurrentIff(cfg.lim, w.store, token);
    var (w1, spoke) := SpeakChat(cfg, w, token, voice, candidates, now);
    match Queueing(cfg, w, token, voice, candidates) {
      case Ok(Some(id)) =>
        MoveMade(cfg.lim, w, token, PlaybackQueued, None, now);
        assert spoke == Spoke(true, Some(id));
      case _ =>
        assert w1.store == w.store;
        MoveMade(cfg.lim, w1, token, stage, code, now);
    }
  }

  /** The reply's text is on record for the turn, newest last. */
  ghost predicate Said(lim: Limits, st: Store, token: Token, role: Role, message: string, st': Store)
    requires token.sessionId in st.sessions && token.sessionId in st'.sessions
  {
    Pushed(st.sessions[token.sessionId].history, Message(role, Strip(message), token.turnId), lim.maxHistory,
           st'.sessions[token.sessionId].history)
  }

  /** The text was committed: the history has it, and nothing else changed. */
  ghost predicate Recorded(lim: Limits, st: Store, token: Token, role: Role, message: string, st': Store) {
    && OnlySession(st, token.sessionId, st')
    && var (s, s') := (st.sessions[token.sessionId], st'.sessions[token.sessionId]);
    && SameElse(s, s') && s'.generation == s.generation && s'.turns == s.turns
    && Said(lim, st, token, role, message, st')
  }

  lemma Committed(lim: Limits, st: Store, token: Token, role: Role, message: string, now: int)
    requires StoreOk(lim, st) && Current(st, token) && CleanMessage(message, lim.maxChars).Some?
    ensures var (st', out) := CommitText(st, lim, token, role, message, now);
            out == Ok(true) && Recorded(lim, st, token, role, message, st')
  {
    CommitExactly(lim, st, token, role, message, now);
  }

  lemma RecordedCurrent(lim: Limits, st: Store, token: Token, role: Role, message: string, st': Store)
    requires Recorded(lim, st, token, role, message, st') && Current(st, token)
    ensures Current(st', token) && NewestTurn(st', token.sessionId) == NewestTurn(st, token.sessionId)
  {
  }

  /** After the text, the end: together they are the end, and the text. */
  lemma RecordedThenEnds(lim: Limits, st: Store, token: Token, role: Role, message: string, mid: Store, st': Store,
                         stage: Stage, code: Option<string>)
    requires Current(st, token) && Recorded(lim, st, token, role, message, mid) && EndsIn(mid, token, st', stage, code)
    requires SameHistory(mid, token.sessionId, st')
    ensures EndsIn(st, token, st', stage, code) && Said(lim, st, token, role, message, st')
  {
  }

  lemma EndsTwice(st: Store, token: Token, mid: Store, st': Store, between: Stage, first: Option<string>, stage: Stage,
                  code: Option<string>)
    requires EndsIn(st, token, mid, between, first) && EndsIn(mid, token, st', stage, code)
    ensures EndsIn(st, token, st', stage, code)
  {
  }

  /** The store once a text is taken, known by what it says. */
  lemma TakenText(lim: Limits, st: Store, token: Token, role: Role, message: string, now: int) returns (mid: Store)
    requires StoreOk(lim, st) && Current(st, token) && CleanMessage(message, lim.maxChars).Some?
    ensures CommitText(st, lim, token, role, message, now) == (mid, Ok(true))
    ensures StoreOk(lim, mid) && Recorded(lim, st, token, role, message, mid) && Current(mid, token)
    ensures NewestTurn(mid, token.sessionId) == NewestTurn(st, token.sessionId)
  {
    mid := CommitText(st, lim, token, role, message, now).0;
    Committed(lim, st, token, role, message, now);
    CommitKeepsOk(lim, st, token, role, message, now);
    RecordedCurrent(lim, st, token, role, message, mid);
  }

  /** A reply is not taken when the turn is no longer current, or when its text is none. */
  lemma FinishRefused(cfg: Config, w: World, token: Token, message: string, speak: bool, voice: Voice,
                      candidates: seq<Id>, now: int)
    requires StoreOk(cfg.lim, w.store)
    ensures var out := Finish(cfg, w, token, message, speak, voice, candidates, now);
            && (!Current(w.store, token) ==> out == (w, Conflict))
            && (Current(w.store, token) && CleanMessage(message, cfg.lim.maxChars).None? ==> out == (w, HandlerRaised))
  {
    CommitExactly(cfg.lim, w.store, token, Assistant, message, now);
  }

  /** The stages in which a reply can be finished: to be spoken or not. */
  ghost predicate Finishes(st: Store, token: Token, speak: bool) {
    Current(st, token)
    && NewestTurn(st, token.sessionId).stage in (if speak then {Thinking, Synthesizing}
                                                 else {Thinking, Synthesizing, Stage.Playing})
  }

  /** A reply that is not to be spoken completes its turn, and touches no audio. */
  lemma FinishSilent(cfg: Config, w: World, token: Token, message: string, voice: Voice, candidates: seq<Id>, now: int)
    requires StoreOk(cfg.lim, w.store) && Finishes(w.store, token, false)
    requires CleanMessage(message, cfg.lim.maxChars).Some?
    ensures var (w', reply) := Finish(cfg, w, token, message, false, voice, candidates, now);
            && reply == Fine && w'.queue == w.queue && w'.audio == w.audio
            && EndsIn(w.store, token, w'.store, Stage.Completed, None)
            && Said(cfg.lim, w.store, token, Assistant, message, w'.store)
  {
    var mid := TakenText(cfg.lim, w.store, token, Assistant, message, now);
    FinishIs(cfg, w, token, message, false, voice, candidates, now, mid);
    CompletedAfter(cfg, w.(store := mid), token, voice, candidates, now);
    RecordedThenEnds(cfg.lim, w.store, token, Assistant, message, mid,
                     AfterCommit(cfg, w.(store := mid), token, false, voice, candidates, now).0.store, Stage.Completed,
                     None);
  }

  lemma FinishIs(cfg: Config, w: World, token: Token, message: string, speak: bool, voice: Voice, candidates: seq<Id>,
                 now: int, mid: Store)
    requires ValidLimits(cfg.lim) && CommitText(w.store, cfg.lim, token, Assistant, message, now) == (mid, Ok(true))
    ensures Finish(cfg, w, token, message, speak, voice, candidates, now)
            == AfterCommit(cfg, w.(store := mid), token, speak, voice, candidates, now)
  {
  }

  /** A reply that comes in any other stage raises, with its text kept already. */
  lemma FinishElsewhere(cfg: Config, w: World, token: Token, message: string, speak: bool, voice: Voice,
                        candidates: seq<Id>, now: int)
    requires StoreOk(cfg.lim, w.store) && Current(w.store, token) && !Finishes(w.store, token, speak)
    requires CleanMessage(message, cfg.lim.maxChars).Some?
    ensures var (w', reply) := Finish(cfg, w, token, message, speak, voice, candidates, now);
            && reply == HandlerRaised && w' == w.(store := w'.store)
            && Recorded(cfg.lim, w.store, token, Assistant, message, w'.store)
  {
    var mid := TakenText(cfg.lim, w.store, token, Assistant, message, now);
    FinishIs(cfg, w, token, message, speak, voice, candidates, now, mid);
    StuckAfter(cfg, w.(store := mid), token, speak, voice, candidates, now);
  }

  lemma StuckAfter(cfg: Config, w: World, token: Token, speak: bool, voice: Voice, candidates: seq<Id>, now: int)
    requires StoreOk(cfg.lim, w.store) && Current(w.store, token) && !Finishes(w.store, token, speak)
    ensures AfterCommit(cfg, w, token, speak, voice, candidates, now) == (w, HandlerRaised)
  {
    var stage := if speak then Synthesizing else Stage.Completed;
    CurrentIff(cfg.lim, w.store, token);
    LegalInto(NewestTurn(w.store, token.sessionId).stage, stage);
    assert !Legal(NewestTurn(w.store, token.sessionId).stage, stage);
    MovedTo(cfg.lim, w.store, token, stage, None, now);
    assert Transition(w.store, token, stage, None, now).1.Raised?;
    assert w.(store := w.store) == w;
  }

  lemma CompletedAfter(cfg: Config, w: World, token: Token, voice: Voice, candidates: seq<Id>, now: int)
    requires StoreOk(cfg.lim, w.store) && Finishes(w.store, token, false)
    ensures var (w', reply) := AfterCommit(cfg, w, token, false, voice, candidates, now);
            && reply == Fine && w'.queue == w.queue && w'.audio == w.audio
            && EndsIn(w.store, token, w'.store, Stage.Completed, None)
            && SameHistory(w.store, token.sessionId, w'.store)
  {
    CurrentIff(cfg.lim, w.store, token);
    MoveMade(cfg.lim, w, token, Stage.Completed, None, now);
  }

  /** A reply to be spoken is committed first, and its turn then goes where speech leads. */
  lemma FinishSpoken(cfg: Config, w: World, token: Token, message: string, voice: Voice, candidates: seq<Id>, now: int,
                     stage: Stage, code: Option<string>)
    requires StoreOk(cfg.lim, w.store) && Finishes(w.store, token, true)
    requires CleanMessage(message, cfg.lim.maxChars).Some?
    requires SpokenEnd(cfg, w, token, voice, candidates, now, stage, code)
    ensures var (w', reply) := Finish(cfg, w, token, message, true, voice, candidates, now);
            && reply == Fine && EndsIn(w.store, token, w'.store, stage, code)
            && Said(cfg.lim, w.store, token, Assistant, message, w'.store)
  {
    var mid := TakenText(cfg.lim, w.store, token, Assistant, message, now);
    FinishIs(cfg, w, token, message, true, voice, candidates, now, mid);
    CurrentIff(cfg.lim, w.store, token);
    CurrentIff(cfg.lim, mid, token);
    SameSpeech(cfg, w, w.(store := mid), token, voice, candidates, now, stage, code);
    SpokenAfter(cfg, w.(store := mid), token, voice, candidates, now, stage, code);
    RecordedThenEnds(cfg.lim, w.store, token, Assistant, message, mid,
                     AfterCommit(cfg, w.(store := mid), token, true, voice, candidates, now).0.store, stage, code);
  }

  lemma SpokenAfter(cfg: Config, w: World, token: Token, voice: Voice, candidates: seq<Id>, now: int, stage: Stage,
                    code: Option<string>)
    requires StoreOk(cfg.lim, w.store) && Finishes(w.store, token, true)
    requires SpokenEnd(cfg, w, token, voice, candidates, now, stage, code)
    ensures var (w', reply) := AfterCommit(cfg, w, token, true, voice, candidates, now);
            && reply == Fine && EndsIn(w.store, token, w'.store, stage, code)
            && SameHistory(w.store, token.sessionId, w'.store)
  {
    if CurrentIn(w.store, token, Synthesizing) {
      AlreadySynthesizing(cfg, w, token, voice, candidates, now);
      ConcludeExactly(cfg, w, token, voice, candidates, now, stage, code);
    } else {
      SpokenThinking(cfg, w, token, voice, candidates, now, stage, code);
    }
  }

  lemma AlreadySynthesizing(cfg: Config, w: World, token: Token, voice: Voice, candidates: seq<Id>, now: int)
    requires StoreOk(cfg.lim, w.store) && CurrentIn(w.store, token, Synthesizing)
    ensures AfterCommit(cfg, w, token, true, voice, candidates, now)
            == Conclude(cfg, w, token, voice, candidates, now)
  {
    MovedTo(cfg.lim, w.store, token, Synthesizing, None, now);
    assert w.(store := w.store) == w;
  }

  lemma SpokenThinking(cfg: Config, w: World, token: Token, voice: Voice, candidates: seq<Id>, now: int, stage: Stage,
                       code: Option<string>)
    requires StoreOk(cfg.lim, w.store) && CurrentIn(w.store, token, Thinking)
    requires SpokenEnd(cfg, w, token, voice, candidates, now, stage, code)
    ensures var (w', reply) := AfterCommit(cfg, w, token, true, voice, candidates, now);
            && reply == Fine && EndsIn(w.store, token, w'.store, stage, code)
            && SameHistory(w.store, token.sessionId, w'.store)
  {
    var st := Transition(w.store, token, Synthesizing, None, now).0;
    TransitionMade(cfg.lim, w.store, token, Synthesizing, None, now);
    TransitionKeepsOk(cfg.lim, w.store, token, Synthesizing, None, now);
    AfterCommitSpeaks(cfg, w, token, voice, candidates, now, st);
    SpokenFrom(cfg, w, st, token, voice, candidates, now, stage, code);
  }

  lemma AfterCommitSpeaks(cfg: Config, w: World, token: Token, voice: Voice, candidates: seq<Id>, now: int, st: Store)
    requires Transition(w.store, token, Synthesizing, None, now) == (st, Ok(true))
    ensures AfterCommit(cfg, w, token, true, voice, candidates, now)
            == Conclude(cfg, w.(store := st), token, voice, candidates, now)
  {
  }

  lemma SpokenFrom(cfg: Config, w: World, st: Store, token: Token, voice: Voice, candidates: seq<Id>, now: int,
                   stage: Stage, code: Option<string>)
    requires StoreOk(cfg.lim, w.store) && Current(w.store, token) && StoreOk(cfg.lim, st)
    requires EndsIn(w.store, token, st, Synthesizing, None) && SameHistory(w.store, token.sessionId, st)
    requires SpokenEnd(cfg, w, token, voice, candidates, now, stage, code)
    ensures var (w', reply) := Conclude(cfg, w.(store := st), token, voice, candidates, now);
            && reply == Fine && EndsIn(w.store, token, w'.store, stage, code)
            && SameHistory(w.store, token.sessionId, w'.store)
  {
    SynthesizingNow(w.store, token, st);
    CurrentIff(cfg.lim, w.store, token);
    CurrentIff(cfg.lim, st, token);
    SameSpeech(cfg, w, w.(store := st), token, voice, candidates, now, stage, code);
    ConcludeExactly(cfg, w.(store := st), token, voice, candidates, now, stage, code);
    EndsTwice(w.store, token, st, Conclude(cfg, w.(store := st), token, voice, candidates, now).0.store, Synthesizing,
              None, stage, code);
  }

  lemma SynthesizingNow(st: Store, token: Token, st': Store)
    requires EndsIn(st, token, st', Synthesizing, None)
    ensures CurrentIn(st', token, Synthesizing)
  {
  }

  /** What speech leads to does not depend on what the store says besides. */
  lemma SameSpeech(cfg: Config, w: World, w2: World, token: Token, voice: Voice, candidates: seq<Id>, now: int,
                   stage: Stage, code: Option<string>)
    requires w2.queue == w.queue && w2.audio == w.audio && Accepts(w.store, token) && Accepts(w2.store, token)
    requires w2.store.sessions[token.sessionId].clientId == w.store.sessions[token.sessionId].clientId
    requires SpokenEnd(cfg, w, token, voice, candidates, now, stage, code)
    ensures SpokenEnd(cfg, w2, token, voice, candidates, now, stage, code)
  {
  }

  // ------------------------------------------------------------- transcripts

  /** A transcript that is not taken: the turn is not current, or nothing was said. */
  lemma HeardNothing(cfg: Config, w: World, token: Token, message: string, now: int)
    requires StoreOk(cfg.lim, w.store)
    ensures var out := Heard(cfg, w, token, message, now);
            && (!Current(w.store, token) ==> out == (w, Conflict))
            && (Current(w.store, token) && CleanMessage(message, cfg.lim.maxChars).None? ==> out == (w, HandlerRaised))
  {
    CommitExactly(cfg.lim, w.store, token, User, message, now);
  }

  lemma HeardIs(cfg: Config, w: World, token: Token, message: string, now: int, mid: Store)
    requires ValidLimits(cfg.lim) && CommitText(w.store, cfg.lim, token, User, message, now) == (mid, Ok(true))
    ensures var (st', moved) := Transition(mid, token, Thinking, None, now);
            Heard(cfg, w, token, message, now) == (w.(store := st'), if moved.Raised? then HandlerRaised else Fine)
  {
  }

  /** A transcript is the user's message of the turn, which is thought about next. */
  lemma HeardExactly(cfg: Config, w: World, token: Token, message: string, now: int)
    requires StoreOk(cfg.lim, w.store) && Current(w.store, token) && CleanMessage(message, cfg.lim.maxChars).Some?
    requires NewestTurn(w.store, token.sessionId).stage in {Capturing, Transcribing}
    ensures var (w', reply) := Heard(cfg, w, token, message, now);
            && reply == Fine && w' == w.(store := w'.store)
            && EndsIn(w.store, token, w'.store, Thinking, None)
            && Said(cfg.lim, w.store, token, User, message, w'.store)
  {
    var mid := TakenText(cfg.lim, w.store, token, User, message, now);
    HeardIs(cfg, w, token, message, now, mid);
    HeardThinks(cfg, w.store, token, message, mid, now);
  }

  lemma HeardThinks(cfg: Config, st: Store, token: Token, message: string, mid: Store, now: int)
    requires StoreOk(cfg.lim, mid) && Current(st, token) && Current(mid, token)
    requires Recorded(cfg.lim, st, token, User, message, mid)
    requires NewestTurn(mid, token.sessionId).stage in {Capturing, Transcribing}
    ensures var (st', out) := Transition(mid, token, Thinking, None, now);
            out == Ok(true) && EndsIn(st, token, st', Thinking, None) && Said(cfg.lim, st, token, User, message, st')
  {
    TransitionMade(cfg.lim, mid, token, Thinking, None, now);
    RecordedThenEnds(cfg.lim, st, token, User, message, mid, Transition(mid, token, Thinking, None, now).0, Thinking,
                     None);
  }

  /** One of a turn that is past that is kept, and an error unless the turn is just then
      being thought about. */
  lemma HeardLate(cfg: Config, w: World, token: Token, message: string, now: int)
    requires StoreOk(cfg.lim, w.store) && Current(w.store, token) && CleanMessage(message, cfg.lim.maxChars).Some?
    requires NewestTurn(w.store, token.sessionId).stage !in {Capturing, Transcribing}
    ensures var (w', reply) := Heard(cfg, w, token, message, now);
            && w' == w.(store := w'.store) && Recorded(cfg.lim, w.store, token, User, message, w'.store)
            && reply == if NewestTurn(w.store, token.sessionId).stage == Thinking then Fine else HandlerRaised
  {
    var mid := TakenText(cfg.lim, w.store, token, User, message, now);
    HeardStays(cfg, w, token, message, now, mid);
  }

  lemma HeardStays(cfg: Config, w: World, token: Token, message: string, now: int, mid: Store)
    requires StoreOk(cfg.lim, mid) && Current(mid, token)
    requires CommitText(w.store, cfg.lim, token, User, message, now) == (mid, Ok(true))
    requires NewestTurn(mid, token.sessionId).stage !in {Capturing, Transcribing}
    ensures Heard(cfg, w, token, message, now)
            == (w.(store := mid),
                if NewestTurn(mid, token.sessionId).stage == Thinking then Fine else HandlerRaised)
  {
    HeardIs(cfg, w, token, message, now, mid);
    NotBackToThinking(cfg.lim, mid, token, now);
  }

  lemma NotBackToThinking(lim: Limits, st: Store, token: Token, now: int)
    requires StoreOk(lim, st) && Current(st, token)
    requires NewestTurn(st, token.sessionId).stage !in {Capturing, Transcribing}
    ensures var (st', out) := Transition(st, token, Thinking, None, now);
            st' == st && (out.Ok? <==> NewestTurn(st, token.sessionId).stage == Thinking)
  {
    CurrentIff(lim, st, token);
  }

  // ---------------------------------------------------------- acknowledgements

  /** The stage and code an accepted report moves the turn to; a report that playback was
      cancelled moves nothing. */
  ghost predicate Reported(ack: Ack, stage: Stage, code: Option<string>) {
    match ack.state
    case Started => stage == Stage.Playing && code.None?
    case Completed => stage == Stage.Completed && code.None?
    case Failed =>
      stage == Stage.Failed
      && (if ack.failure.None? || ack.failure == Some("") then code == Some("playback_failed") else code == ack.failure)
    case Queued => false
    case Cancelled => false
  }

  /** A report about an unknown item, or one that the queue refuses, is a conflict, and the
      turn is left alone. */
  lemma ReportRefused(cfg: Config, w: World, ack: Ack, now: int)
    requires ack.playbackId !in w.queue.items || !Acknowledge(w.queue, cfg.b, w.store, ack).1
    ensures var (w', reply) := Acknowledged(cfg, w, ack, now);
            reply == Conflict && w'.store == w.store && w'.audio == w.audio
            && (ack.playbackId !in w.queue.items ==> w' == w)
  {
  }

  /** A report that the queue accepts as news moves the item's turn, if it is current, to
      the stage reported; from a stage that does not allow it, that is an error.  A report
      that repeats what is known, or tells of a cancellation, moves nothing. */
  lemma ReportExactly(cfg: Config, w: World, ack: Ack, now: int, stage: Stage, code: Option<string>)
    requires StoreOk(cfg.lim, w.store) && QueueInv(w.queue, cfg.b)
    requires ack.playbackId in w.queue.items && Acknowledge(w.queue, cfg.b, w.store, ack).1
    requires ack.state != PlaybackState.Cancelled ==> Reported(ack, stage, code)
    ensures var (w', reply) := Acknowledged(cfg, w, ack, now);
            var item := w.queue.items[ack.playbackId];
            && w'.queue == Acknowledge(w.queue, cfg.b, w.store, ack).0 && w'.audio == w.audio
            && if item.state == ack.state || ack.state == PlaybackState.Cancelled || !Current(w.store, item.token)
               then w'.store == w.store && reply == Fine
               else
                 var from := NewestTurn(w.store, item.token.sessionId).stage;
                 if from == stage then w'.store == w.store && reply == Fine
                 else if !Legal(from, stage) then w'.store == w.store && reply == HandlerRaised
                 else EndsIn(w.store, item.token, w'.store, stage, code) && reply == Fine
  {
    PlaybackOutcomes.AckAnswers(w.queue, cfg.b, w.store, ack);
    PlaybackOutcomes.AckExactly(w.queue, cfg.b, w.store, ack);
    var token := w.queue.items[ack.playbackId].token;
    CurrentIff(cfg.lim, w.store, token);
    if Current(w.store, token) && ack.state != PlaybackState.Cancelled {
      MovedTo(cfg.lim, w.store, token, stage, code, now);
    }
  }

  /** The three ways a current turn can be told to move. */
  lemma MovedTo(lim: Limits, st: Store, token: Token, stage: Stage, code: Option<string>, now: int)
    requires StoreOk(lim, st) && Current(st, token)
    ensures var (st', out) := Transition(st, token, stage, code, now);
            var from := NewestTurn(st, token.sessionId).stage;
            if from == stage then st' == st && out.Ok?
            else if !Legal(from, stage) then st' == st && out.Raised?
            else EndsIn(st, token, st', stage, code) && out.Ok?
  {
    CurrentIff(lim, st, token);
    if Legal(NewestTurn(st, token.sessionId).stage, stage) { TransitionMade(lim, st, token, stage, code, now); }
  }

  // ------------------------------------------------------------- cancellations

  /** Cancelling a session: its turns first, then its audio, through the generation that
      was left; an unknown session is a conflict. */
  lemma CancelAllExactly(cfg: Config, w: World, id: Id, now: int)
    requires ValidBounds(cfg.b) && Ordered(w.queue)
    ensures var (w', reply) := CancelAll(cfg, w, id, now);
            if id in w.store.sessions then
              && reply == Fine && w'.store == Cancel(w.store, id, None, now).0 && w'.audio == w.audio
              && w'.queue == CancelSession(w.queue, cfg.b, id, Some(w.store.sessions[id].generation)).0
            else reply == Conflict && w' == w
  {
  }

  /** Closing one: the same, and all its audio goes, of whatever generation. */
  lemma CloseAllExactly(cfg: Config, w: World, id: Id, now: int)
    requires ValidBounds(cfg.b) && Ordered(w.queue)
    ensures var (w', reply) := CloseAll(cfg, w, id, now);
            if id in w.store.sessions then
              && reply == Fine && w'.store == CloseSession(w.store, id, now).0 && w'.audio == w.audio
              && w'.queue == CancelSession(w.queue, cfg.b, id, None).0
            else reply == Conflict && w' == w
  {
  }

  // ------------------------------------------------------------------ previews

  /** The code a preview's turn fails with, when nothing was queued for it. */
  ghost predicate PreviewCode(spoke: Spoke, code: string) {
    && (spoke.SpokeRaised? ==> code == "tts_exception")
    && (spoke.Spoke? && !spoke.ok ==> code == "tts_failed")
    && (spoke.Spoke? && spoke.ok && spoke.playbackId.None? ==> code == "playback_not_queued")
  }

  /** A preview is a turn of its own, begun as one that synthesizes already.  When nothing
      is queued the turn fails with the code above, if it is current, and the preview is a
      conflict; otherwise the turn stays as speech left it. */
  lemma PreviewExactly(cfg: Config, w: World, sessionId: Id, voice: Voice, candidates: seq<Id>, itemCandidates: seq<Id>,
                       now: int, code: string)
    requires ValidLimits(cfg.lim)
    ensures var (st, begun) := BeginTurn(w.store, cfg.lim, sessionId, Text, None, Some(Synthesizing), candidates, now);
            var (w', reply) := Previewed(cfg, w, sessionId, voice, candidates, itemCandidates, now);
            if begun.Raised? then w' == w.(store := st) && reply == Conflict
            else
              var (w1, spoke) := SpeakChat(cfg, w.(store := st), begun.value, voice, itemCandidates, now);
              if spoke.Spoke? && spoke.ok && spoke.playbackId.Some? then w' == w1 && reply == Fine
              else
                PreviewCode(spoke, code) ==>
                  reply == Conflict && w' == MoveIfCurrent(w1, begun.value, Stage.Failed, Some(code), now).0
  {
  }

  // --------------------------------------------------------- beginning and ending

  /** A chat message begins a turn that is thought about at once, a capture one whose words
      are being recognised; a request that begins none is a conflict and changes nothing. */
  lemma BegunExactly(cfg: Config, w: World, r: Request, now: int)
    requires StoreOk(cfg.lim, w.store) && ValidBounds(cfg.b) && Ordered(w.queue) && (r.BeginChat? || r.BeginCapture?)
    ensures var (w', reply) := Handle(cfg, w, r, now);
            && w'.queue == w.queue && w'.audio == w.audio && (reply == Fine || (reply == Conflict && w' == w))
            && (reply == Fine ==>
                  && OnlySession(w.store, r.sessionId, w'.store)
                  && w'.store.sessions[r.sessionId].turns != []
                  && var t := NewestTurn(w'.store, r.sessionId);
                  && t.generation == w.store.sessions[r.sessionId].generation && t.failure.None?
                  && if r.BeginChat? then t.origin == r.origin && t.stage == Thinking
                     else t.origin == Origin.Voice && t.stage == Transcribing)
  {
    if r.BeginChat? {
      BegunWith(cfg.lim, w.store, r.sessionId, r.origin, Some(r.message), None, r.candidates, now, Thinking);
    } else {
      BegunWith(cfg.lim, w.store, r.sessionId, Origin.Voice, None, Some(Transcribing), r.candidates, now, Transcribing);
    }
  }

  lemma BegunWith(lim: Limits, st: Store, id: Id, origin: Origin, text: Option<string>, initial: Option<Stage>,
                  candidates: seq<Id>, now: int, stage: Stage)
    requires StoreOk(lim, st) && StartsIn(origin, text, initial, stage)
    ensures var (st', out) := BeginTurn(st, lim, id, origin, text, initial, candidates, now);
            if out.Raised? then st' == st
            else
              && OnlySession(st, id, st') && st'.sessions[id].turns != []
              && var t := NewestTurn(st', id);
              t.generation == st.sessions[id].generation && t.failure.None? && t.origin == origin && t.stage == stage
  {
    BeginFails(lim, st, id, origin, text, initial, candidates, now, stage);
    if BeginTurn(st, lim, id, origin, text, initial, candidates, now).1.Ok? {
      BeginExactly(lim, st, id, origin, text, initial, candidates, now, stage);
    }
  }

  /** A request to fail or to confirm ends the turn if it is current and may end so. */
  lemma EndedExactly(cfg: Config, w: World, r: Request, now: int)
    requires StoreOk(cfg.lim, w.store) && ValidBounds(cfg.b) && Ordered(w.queue) && (r.Fail? || r.Confirmed?)
    ensures var (w', reply) := Handle(cfg, w, r, now);
            && w'.queue == w.queue && w'.audio == w.audio
            && if !Current(w.store, r.token) then w' == w && reply == Fine
               else if r.Fail? then reply == Fine && EndsIn(w.store, r.token, w'.store, Stage.Failed, Some(r.code))
               else if Legal(NewestTurn(w.store, r.token.sessionId).stage, Stage.Completed)
               then reply == Fine && EndsIn(w.store, r.token, w'.store, Stage.Completed, None)
               else w' == w && reply == HandlerRaised
  {
    CurrentIff(cfg.lim, w.store, r.token);
    if Current(w.store, r.token) {
      var (stage, code) := if r.Fail? then (Stage.Failed, Some(r.code)) else (Stage.Completed, None);
      MovedTo(cfg.lim, w.store, r.token, stage, code, now);
    }
  }

  // ------------------------------------------------------------- other requests

  /** A poll is answered whatever it finds and changes the queue alone; storing and fetching
      audio change the artifacts alone, and fail when the store refuses; a request to
      change a session or a context changes that store alone, and is a conflict when it is
      refused. */
  lemma OthersExactly(cfg: Config, w: World, r: Request, now: int)
    requires StoreOk(cfg.lim, w.store) && ValidBounds(cfg.b) && Ordered(w.queue)
    ensures var (w', reply) := Handle(cfg, w, r, now);
            match r
            case NextPlayback(client) =>
              w' == w.(queue := NextCommand(w.queue, cfg.b, w.store, client).0) && reply == Fine
            case StoreAudio(data, contentType, artifact) =>
              var put := Artifacts.Put(w.audio, cfg.caps, data, contentType, artifact, now);
              w' == w.(audio := put.0) && reply == if put.1.Ok? then Fine else HandlerRaised
            case FetchAudio(artifact, session) =>
              var fetched := Artifacts.Consume(w.audio, cfg.caps, artifact, session, now);
              w' == w.(audio := fetched.0) && reply == if fetched.1.Some? then Fine else Conflict
            case NewSession(clientId, context, candidates) =>
              var created := CreateSession(w.store, cfg.lim, clientId, context, candidates, now);
              w' == w.(store := created.0) && reply == if created.1.Ok? then Fine else Conflict
            case ContextRequest(id, changes, clear) =>
              var updated := UpdateContext(w.store, id, changes, clear, now);
              w' == w.(store := updated.0) && reply == if updated.1.Ok? then Fine else Conflict
            case PendingRequest(id, request) =>
              var kept := SetPending(w.store, cfg.lim, id, request, now);
              w' == w.(store := kept.0) && reply == if kept.1.Ok? then Fine else Conflict
            case Preview(id, voice, turnIds, itemIds) =>
              (w', reply) == Previewed(cfg, w, id, voice, turnIds, itemIds, now)
            case _ => true
  {
  }
}
