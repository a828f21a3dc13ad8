/** Whose audio it is: what a queued item refers to can be fetched by the item's own
    session only, however requests follow one another. */
module AudioPrivacy {
  import opened Collections
  import opened Sessions
  import opened Playback
  import opened PlaybackInvariant
  import opened PlaybackEffects
  import opened TurnProtocol
  import opened TurnHandlers
  import opened TurnAgreement

  // -------------------------------------------------------------- references

  /** What comes before the first question mark. */
  function BeforeQuery(ref: string): string {
    if ref == "" || ref[0] == '?' then "" else [ref[0]] + BeforeQuery(ref[1..])
  }

  /** The artifact a client asks for when it follows an item's reference. */
  function Fetched(ref: string): string {
    AfterSlash(BeforeQuery(ref))
  }

  lemma {:induction false} QueryCutOff(ref: string, query: string)
    requires '?' !in ref
    ensures BeforeQuery(ref + "?" + query) == ref
  {
    if ref == "" {
      assert (ref + "?" + query)[0] == '?';
    } else {
      assert (ref + "?" + query)[1..] == ref[1..] + "?" + query;
      QueryCutOff(ref[1..], query);
    }
  }

  lemma OwnedFetches(ref: string, token: Token)
    requires '?' !in ref
    ensures Fetched(OwnedRef(ref, token)) == AfterSlash(ref)
  {
    QueryCutOff(ref, "session_id=" + token.sessionId);
    assert ref + "?" + ("session_id=" + token.sessionId) == OwnedRef(ref, token);
  }

  // ------------------------------------------------------------- the invariant

  /** An artifact the item refers to is bound to the item's turn. */
  ghost predicate BoundTo(audio: seq<Artifacts.Artifact>, item: Item, i: int) {
    0 <= i < |audio| && audio[i].id == Fetched(item.audioRef) ==> audio[i].owner == Some(OwnerOf(item.token))
  }

  ghost predicate ItemPrivate(w: World, heard: set<Id>, id: Id) {
    id in w.queue.items ==>
      && Fetched(w.queue.items[id].audioRef) in heard
      && forall i {:trigger BoundTo(w.audio, w.queue.items[id], i)} :: BoundTo(w.audio, w.queue.items[id], i)
  }

  ghost predicate OneId(audio: seq<Artifacts.Artifact>, i: int, j: int) {
    0 <= i < j < |audio| ==> audio[i].id != audio[j].id
  }

  ghost predicate OneEach(audio: seq<Artifacts.Artifact>) {
    forall i, j {:trigger OneId(audio, i, j)} :: OneId(audio, i, j)
  }

  /** `heard` holds the ids of all artifacts ever spoken of. */
  ghost predicate Private(w: World, heard: set<Id>) {
    OneEach(w.audio) && forall id {:trigger ItemPrivate(w, heard, id)} :: ItemPrivate(w, heard, id)
  }

  // -------------------------------------------- what artifact operations keep

  /** Every entry of `b` is one of `a`. */
  ghost predicate Entries(a: seq<Artifacts.Artifact>, b: seq<Artifacts.Artifact>) {
    OneEach(b) && forall i :: 0 <= i < |b| ==> b[i] in a
  }

  lemma {:induction false} PruneKeepsEntries(audio: seq<Artifacts.Artifact>, cutoff: int)
    requires OneEach(audio)
    ensures Entries(audio, Artifacts.Prune(audio, cutoff))
  {
    if audio != [] {
      var n := |audio| - 1;
      var front, rest := audio[..n], Artifacts.Prune(audio[..n], cutoff);
      forall i, j ensures OneId(front, i, j) { assert OneId(audio, i, j); }
      PruneKeepsEntries(front, cutoff);
      var r := Artifacts.Prune(audio, cutoff);
      forall i, j ensures OneId(r, i, j) {
        assert OneId(rest, i, j);
        if 0 <= i < j == |rest| && r != rest {
          var k :| 0 <= k < n && front[k] == rest[i];
          assert OneId(audio, k, n);
        }
      }
    }
  }

  lemma {:induction false} EvictKeepsEntries(audio: seq<Artifacts.Artifact>, caps: Artifacts.Caps)
    requires OneEach(audio)
    ensures Entries(audio, Artifacts.Evict(audio, caps))
  {
    var k := Artifacts.EvictLongestSuffix(audio, caps);
    var r := audio[k..];
    forall i, j ensures OneId(r, i, j) { assert OneId(audio, i + k, j + k); }
  }

  lemma InsertKeepsEntries(audio: seq<Artifacts.Artifact>, a: Artifacts.Artifact)
    requires OneEach(audio)
    ensures var r := Artifacts.Insert(audio, a); OneEach(r) && forall i :: 0 <= i < |r| ==> r[i] == a || r[i] in audio
  {
    var r, k := Artifacts.Insert(audio, a), Artifacts.Find(audio, a.id);
    forall i, j ensures OneId(r, i, j) { assert OneId(audio, i, j) && OneId(audio, i, k) && OneId(audio, k, j); }
  }

  /** Storing audio under an id not spoken of yet. */
  lemma StoreKeeps(w: World, heard: set<Id>, caps: Artifacts.Caps, data: Artifacts.Bytes, contentType: string,
                   artifact: Id, now: int)
    requires Private(w, heard) && artifact !in heard
    ensures Private(w.(audio := Artifacts.Put(w.audio, caps, data, contentType, artifact, now).0), heard)
  {
    var after := Artifacts.Put(w.audio, caps, data, contentType, artifact, now).0;
    if after != w.audio {
      var kept := Artifacts.Prune(w.audio, now - caps.ttl);
      var a := Artifacts.Artifact(artifact, contentType, data, now, None);
      PruneKeepsEntries(w.audio, now - caps.ttl);
      InsertKeepsEntries(kept, a);
      EvictKeepsEntries(Artifacts.Insert(kept, a), caps);
      ChangeKeeps(w, heard, after, a);
    }
  }

  /** The entries are old ones, or for an artifact nothing refers to. */
  lemma ChangeKeeps(w: World, heard: set<Id>, audio: seq<Artifacts.Artifact>, a: Artifacts.Artifact)
    requires Private(w, heard) && OneEach(audio) && a.id !in heard
    requires forall i :: 0 <= i < |audio| ==> audio[i] == a || audio[i] in w.audio
    ensures Private(w.(audio := audio), heard)
  {
    var w' := w.(audio := audio);
    forall id ensures ItemPrivate(w', heard, id) {
      assert ItemPrivate(w, heard, id);
      if id in w.queue.items {
        var item := w.queue.items[id];
        forall i ensures BoundTo(audio, item, i) {
          if 0 <= i < |audio| && audio[i].id == Fetched(item.audioRef) {
            var k :| 0 <= k < |w.audio| && w.audio[k] == audio[i];
            assert BoundTo(w.audio, item, k);
          }
        }
      }
    }
  }

  lemma ConsumeKeepsEntries(audio: seq<Artifacts.Artifact>, caps: Artifacts.Caps, artifact: Id, session: Option<Id>,
                            now: int)
    requires OneEach(audio)
    ensures Entries(audio, Artifacts.Consume(audio, caps, artifact, session, now).0)
  {
    var kept := Artifacts.Prune(audio, now - caps.ttl);
    PruneKeepsEntries(audio, now - caps.ttl);
    var after := Artifacts.Consume(audio, caps, artifact, session, now).0;
    var k := Artifacts.Find(kept, artifact);
    forall i, j ensures OneId(after, i, j) {
      if after != kept {
        assert OneId(kept, if i < k then i else i + 1, if j < k then j else j + 1);
      } else {
        assert OneId(kept, i, j);
      }
    }
  }

  lemma FetchKeeps(w: World, heard: set<Id>, caps: Artifacts.Caps, artifact: Id, session: Option<Id>, now: int)
    requires Private(w, heard)
    ensures Private(w.(audio := Artifacts.Consume(w.audio, caps, artifact, session, now).0), heard)
  {
    ConsumeKeepsEntries(w.audio, caps, artifact, session, now);
    SubsetKeeps(w, heard, Artifacts.Consume(w.audio, caps, artifact, session, now).0);
  }

  lemma SubsetKeeps(w: World, heard: set<Id>, audio: seq<Artifacts.Artifact>)
    requires Private(w, heard) && Entries(w.audio, audio)
    ensures Private(w.(audio := audio), heard)
  {
    var w' := w.(audio := audio);
    forall id ensures ItemPrivate(w', heard, id) {
      assert ItemPrivate(w, heard, id);
      if id in w.queue.items {
        forall i ensures BoundTo(audio, w.queue.items[id], i) {
          if 0 <= i < |audio| {
            var k :| 0 <= k < |w.audio| && w.audio[k] == audio[i];
            assert BoundTo(w.audio, w.queue.items[id], k);
          }
        }
      }
    }
  }

  /** Binding an artifact nothing refers to yet. */
  lemma BindKeeps(w: World, heard: set<Id>, caps: Artifacts.Caps, artifact: Id, owner: Artifacts.Owner, now: int)
    requires Private(w, heard) && artifact !in heard
    ensures var (audio, bound) := Artifacts.Bind(w.audio, caps, artifact, owner, now);
            && Private(w.(audio := audio), heard)
            && (bound ==> forall i :: 0 <= i < |audio| && audio[i].id == artifact ==> audio[i].owner == Some(owner))
  {
    var kept := Artifacts.Prune(w.audio, now - caps.ttl);
    PruneKeepsEntries(w.audio, now - caps.ttl);
    var (audio, bound) := Artifacts.Bind(w.audio, caps, artifact, owner, now);
    var k := Artifacts.Find(kept, artifact);
    forall i, j ensures OneId(audio, i, j) { assert OneId(kept, i, j); }
    if bound {
      forall i | 0 <= i < |audio| && audio[i].id == artifact ensures i == k {
        assert OneId(kept, i, k) && OneId(kept, k, i);
      }
      ChangeKeeps(w, heard, audio, audio[k]);
    } else {
      SubsetKeeps(w, heard, audio);
    }
  }

  // ------------------------------------------------- what the handlers keep

  /** The items are old ones, whatever became of them. */
  ghost predicate SameItems(q: Queue, r: Queue) {
    forall id {:trigger id in r.items} :: id in r.items ==> id in q.items && SameWork(q.items[id], r.items[id])
  }

  lemma QueueKeepsPrivate(w: World, heard: set<Id>, w': World)
    requires Private(w, heard) && SameItems(w.queue, w'.queue) && w'.audio == w.audio
    ensures Private(w', heard)
  {
    forall id ensures ItemPrivate(w', heard, id) {
      assert ItemPrivate(w, heard, id);
      if id in w'.queue.items {
        forall i ensures BoundTo(w'.audio, w'.queue.items[id], i) { assert BoundTo(w.audio, w.queue.items[id], i); }
      }
    }
  }

  lemma MoreHeard(w: World, heard: set<Id>, more: set<Id>)
    requires Private(w, heard) && heard <= more
    ensures Private(w, more)
  {
    forall id ensures ItemPrivate(w, more, id) { assert ItemPrivate(w, heard, id); }
  }

  /** The artifact a synthesis result speaks of, if any. */
  function Spoken(voice: Voice): set<Id> {
    if HasAudio(voice) then {AfterSlash(voice.audioRef.value)} else {}
  }

  /** The artifact is a new one, and its reference has no query. */
  predicate NewVoice(voice: Voice, heard: set<Id>) {
    HasAudio(voice) ==> AfterSlash(voice.audioRef.value) !in heard && '?' !in voice.audioRef.value
  }

  lemma QueueSpeechPrivate(cfg: Config, w: World, heard: set<Id>, token: Token, ref: string, candidates: seq<Id>,
                           now: int)
    requires Private(w, heard) && Accepts(w.store, token) && Fetched(ref) in heard
    requires forall i ::
               0 <= i < |w.audio| && w.audio[i].id == Fetched(ref) ==> w.audio[i].owner == Some(OwnerOf(token))
    ensures Private(QueueSpeech(cfg, w, token, ref, candidates, now).0, heard)
  {
    var client := w.store.sessions[token.sessionId].clientId;
    EnqueueEffect(w.queue, cfg.b, w.store, client, token, ref, "audio/wav", candidates);
    var w' := QueueSpeech(cfg, w, token, ref, candidates, now).0;
    forall id ensures ItemPrivate(w', heard, id) {
      assert ItemPrivate(w, heard, id);
      if id in w'.queue.items {
        forall i ensures BoundTo(w'.audio, w'.queue.items[id], i) {
          if id in w.queue.items { assert BoundTo(w.audio, w.queue.items[id], i); }
        }
      }
    }
  }

  lemma SpeakPrivate(cfg: Config, w: World, heard: set<Id>, token: Token, voice: Voice, candidates: seq<Id>, now: int)
    requires Private(w, heard) && NewVoice(voice, heard)
    ensures Private(SpeakChat(cfg, w, token, voice, candidates, now).0, heard + Spoken(voice))
  {
    MoreHeard(w, heard, heard + Spoken(voice));
    if HasAudio(voice) && Accepts(w.store, token) {
      var artifact := AfterSlash(voice.audioRef.value);
      var (audio, bound) := Artifacts.Bind(w.audio, cfg.caps, artifact, OwnerOf(token), now);
      BindKeeps(w, heard, cfg.caps, artifact, OwnerOf(token), now);
      MoreHeard(w.(audio := audio), heard, heard + Spoken(voice));
      OwnedFetches(voice.audioRef.value, token);
      if bound {
        QueueSpeechPrivate(cfg, w.(audio := audio), heard + Spoken(voice), token,
                           OwnedRef(voice.audioRef.value, token), candidates, now);
      }
    }
  }

  lemma SameQueuePrivate(w: World, heard: set<Id>, w': World)
    requires Private(w, heard) && w'.queue == w.queue && w'.audio == w.audio
    ensures Private(w', heard)
  {
    QueueKeepsPrivate(w, heard, w');
  }

  lemma ConcludePrivate(cfg: Config, w: World, heard: set<Id>, token: Token, voice: Voice, candidates: seq<Id>,
                        now: int)
    requires Private(w, heard) && NewVoice(voice, heard)
    ensures Private(Conclude(cfg, w, token, voice, candidates, now).0, heard + Spoken(voice))
  {
    SpeakPrivate(cfg, w, heard, token, voice, candidates, now);
    var w1 := SpeakChat(cfg, w, token, voice, candidates, now).0;
    SameQueuePrivate(w1, heard + Spoken(voice), Conclude(cfg, w, token, voice, candidates, now).0);
  }

  lemma FinishPrivate(cfg: Config, w: World, heard: set<Id>, token: Token, message: string, speak: bool, voice: Voice,
                      candidates: seq<Id>, now: int)
    requires ValidLimits(cfg.lim) && Private(w, heard) && NewVoice(voice, heard)
    ensures Private(Finish(cfg, w, token, message, speak, voice, candidates, now).0, heard + Spoken(voice))
  {
    MoreHeard(w, heard, heard + Spoken(voice));
    var (st, committed) := CommitText(w.store, cfg.lim, token, Assistant, message, now);
    var (st1, moved) := Transition(st, token, if speak then Synthesizing else Stage.Completed, None, now);
    var w1 := w.(store := st1);
    SameQueuePrivate(w, heard, w1);
    ConcludePrivate(cfg, w1, heard, token, voice, candidates, now);
    SameQueuePrivate(w, heard + Spoken(voice), w1);
  }

  lemma PreviewPrivate(cfg: Config, w: World, heard: set<Id>, sessionId: Id, voice: Voice, candidates: seq<Id>,
                       itemCandidates: seq<Id>, now: int)
    requires ValidLimits(cfg.lim) && Private(w, heard) && NewVoice(voice, heard)
    ensures Private(Previewed(cfg, w, sessionId, voice, candidates, itemCandidates, now).0, heard + Spoken(voice))
  {
    MoreHeard(w, heard, heard + Spoken(voice));
    var (st, begun) := BeginTurn(w.store, cfg.lim, sessionId, Text, None, Some(Synthesizing), candidates, now);
    var w0 := w.(store := st);
    SameQueuePrivate(w, heard, w0);
    SameQueuePrivate(w, heard + Spoken(voice), w0);
    if begun.Ok? { SpokenPreviewPrivate(cfg, w0, heard, begun.value, voice, itemCandidates, now); }
  }

  lemma SpokenPreviewPrivate(cfg: Config, w: World, heard: set<Id>, token: Token, voice: Voice, candidates: seq<Id>,
                             now: int)
    requires Private(w, heard) && NewVoice(voice, heard)
    ensures var (w1, spoke) := SpeakChat(cfg, w, token, voice, candidates, now);
            Private(PreviewOutcome(w1, token, spoke, now).0, heard + Spoken(voice))
  {
    var (w1, spoke) := SpeakChat(cfg, w, token, voice, candidates, now);
    SpeakPrivate(cfg, w, heard, token, voice, candidates, now);
    SameQueuePrivate(w1, heard + Spoken(voice), PreviewOutcome(w1, token, spoke, now).0);
  }

  lemma CancelPrivate(cfg: Config, w: World, heard: set<Id>, id: Id, through: Option<int>)
    requires QueueInv(w.queue, cfg.b) && Private(w, heard) && Ordered(w.queue)
    ensures Private(Silenced(cfg, w, id, through), heard)
  {
    CancelSessionKeeps(w.queue, cfg.b, id, through);
    QueueKeepsPrivate(w, heard, Silenced(cfg, w, id, through));
  }

  lemma StopRequestPrivate(cfg: Config, w: World, heard: set<Id>, r: Request, now: int)
    requires QueueInv(w.queue, cfg.b) && StoreOk(cfg.lim, w.store) && Ordered(w.queue) && Private(w, heard)
    requires r.CancelRequest? || r.CloseRequest?
    ensures Private(Handle(cfg, w, r, now).0, heard)
  {
    match r {
      case CancelRequest(id) =>
        var (st, out) := Cancel(w.store, id, None, now);
        SameQueuePrivate(w, heard, w.(store := st));
        if out.Ok? { CancelPrivate(cfg, w.(store := st), heard, id, Some(out.value - 1)); }
      case CloseRequest(id) =>
        var st := CloseSession(w.store, id, now).0;
        SameQueuePrivate(w, heard, w.(store := st));
        CancelPrivate(cfg, w.(store := st), heard, id, None);
    }
  }

  lemma PollPrivate(cfg: Config, w: World, heard: set<Id>, c: string)
    requires QueueInv(w.queue, cfg.b) && Private(w, heard)
    ensures Private(w.(queue := NextCommand(w.queue, cfg.b, w.store, c).0), heard)
  {
    NextCommandEffect(w.queue, cfg.b, w.store, c);
    QueueKeepsPrivate(w, heard, w.(queue := NextCommand(w.queue, cfg.b, w.store, c).0));
  }

  lemma AckPrivate(cfg: Config, w: World, heard: set<Id>, ack: Ack, now: int)
    requires QueueInv(w.queue, cfg.b) && Private(w, heard)
    ensures Private(Acknowledged(cfg, w, ack, now).0, heard)
  {
    AcknowledgeEffect(w.queue, cfg.b, w.store, ack);
    var w1 := w.(queue := Acknowledge(w.queue, cfg.b, w.store, ack).0);
    QueueKeepsPrivate(w, heard, w1);
    SameQueuePrivate(w1, heard, Acknowledged(cfg, w, ack, now).0);
  }

  lemma StoreRequestPrivate(cfg: Config, w: World, heard: set<Id>, r: Request, now: int)
    requires QueueInv(w.queue, cfg.b) && StoreOk(cfg.lim, w.store) && Ordered(w.queue) && Private(w, heard)
    requires r.NewSession? || r.BeginChat? || r.BeginCapture? || r.Transcribed? || r.Fail? || r.Confirmed?
             || r.ContextRequest? || r.PendingRequest?
    ensures Private(Handle(cfg, w, r, now).0, heard)
  {
    SameQueuePrivate(w, heard, Handle(cfg, w, r, now).0);
  }

  /** The artifact ids a request speaks of for the first time. */
  function NewlyHeard(r: Request): set<Id> {
    match r
    case FinishTurn(_, _, _, voice, _) => Spoken(voice)
    case Preview(_, voice, _, _) => Spoken(voice)
    case _ => {}
  }

  /** Synthesized audio is stored under an id of its own before it is spoken of once. */
  predicate FreshAudio(r: Request, heard: set<Id>) {
    match r
    case FinishTurn(_, _, _, voice, _) => NewVoice(voice, heard)
    case Preview(_, voice, _, _) => NewVoice(voice, heard)
    case StoreAudio(_, _, artifact) => artifact !in heard
    case _ => true
  }

  lemma ArtifactRequestPrivate(cfg: Config, w: World, heard: set<Id>, r: Request, now: int)
    requires QueueInv(w.queue, cfg.b) && StoreOk(cfg.lim, w.store) && Ordered(w.queue) && Private(w, heard)
             && FreshAudio(r, heard)
    requires r.StoreAudio? || r.FetchAudio?
    ensures Private(Handle(cfg, w, r, now).0, heard)
  {
    match r {
      case StoreAudio(data, contentType, artifact) => StoreKeeps(w, heard, cfg.caps, data, contentType, artifact, now);
      case FetchAudio(artifact, session) => FetchKeeps(w, heard, cfg.caps, artifact, session, now);
    }
  }

  lemma HandlePrivate(cfg: Config, w: World, heard: set<Id>, r: Request, now: int)
    requires QueueInv(w.queue, cfg.b) && StoreOk(cfg.lim, w.store) && Ordered(w.queue)
    requires Private(w, heard) && FreshAudio(r, heard)
    ensures Private(Handle(cfg, w, r, now).0, heard + NewlyHeard(r))
  {
    if r.FinishTurn? {
      FinishPrivate(cfg, w, heard, r.token, r.message, r.speak, r.voice, r.candidates, now);
    } else if r.Preview? {
      PreviewPrivate(cfg, w, heard, r.sessionId, r.voice, r.candidates, r.itemCandidates, now);
    } else {
      assert heard + NewlyHeard(r) == heard;
      OtherPrivate(cfg, w, heard, r, now);
    }
  }

  lemma OtherPrivate(cfg: Config, w: World, heard: set<Id>, r: Request, now: int)
    requires QueueInv(w.queue, cfg.b) && StoreOk(cfg.lim, w.store) && Ordered(w.queue)
    requires Private(w, heard) && FreshAudio(r, heard) && !r.FinishTurn? && !r.Preview?
    ensures Private(Handle(cfg, w, r, now).0, heard)
  {
    if r.StoreAudio? || r.FetchAudio? { ArtifactRequestPrivate(cfg, w, heard, r, now); }
    else if r.CancelRequest? || r.CloseRequest? { StopRequestPrivate(cfg, w, heard, r, now); }
    else if r.NextPlayback? { PollPrivate(cfg, w, heard, r.clientId); }
    else if r.PlaybackAck? { AckPrivate(cfg, w, heard, r.ack, now); }
    else { StoreRequestPrivate(cfg, w, heard, r, now); }
  }

  // ----------------------------------------------------------- runs of requests

  /** No two results of synthesis speak of the same artifact. */
  ghost predicate FreshVoices(heard: set<Id>, rs: seq<Served>)
    decreases |rs|
  {
    rs == [] || (FreshAudio(rs[0].request, heard) && FreshVoices(heard + NewlyHeard(rs[0].request), rs[1..]))
  }

  lemma {:induction false} PrivateForever(cfg: Config, used: set<Id>, w: World, heard: set<Id>, rs: seq<Served>)
    returns (heard': set<Id>)
    requires WorldInv(cfg, used, w) && FreshTurns(used, rs) && Private(w, heard) && FreshVoices(heard, rs)
    ensures Private(Serve(cfg, used, w, rs), heard')
    decreases |rs|
  {
    heard' := heard;
    if rs != [] {
      var r, now := rs[0].request, rs[0].now;
      HandleKeeps(cfg, used, w, r, now);
      HandlePrivate(cfg, w, heard, r, now);
      heard' := PrivateForever(cfg, used + Elements(TurnCandidates(r)), Handle(cfg, w, r, now).0,
                               heard + NewlyHeard(r), rs[1..]);
    }
  }

  /** After any run of requests from the start: whoever follows the reference of any item
      the queue still knows, and gets its audio, is the item's own session. */
  lemma AudioStaysPrivate(cfg: Config, rs: seq<Served>, id: Id, session: Option<Id>, now: int)
    requires ValidLimits(cfg.lim) && ValidBounds(cfg.b) && FreshTurns({}, rs) && FreshVoices({}, rs)
    ensures var end := ServeFromStart(cfg, rs);
            id in end.queue.items ==>
              var item := end.queue.items[id];
              var out := Artifacts.Consume(end.audio, cfg.caps, Fetched(item.audioRef), session, now).1;
              out.Some? ==> session == Some(item.token.sessionId) && out.value.owner == Some(OwnerOf(item.token))
  {
    EmptyWorld(cfg);
    var w := World(EMPTY_STORE, EMPTY_QUEUE, []);
    forall k ensures ItemPrivate(w, {}, k) {}
    forall i, j ensures OneId(w.audio, i, j) {}
    var heard := PrivateForever(cfg, {}, w, {}, rs);
    var end := ServeFromStart(cfg, rs);
    if id in end.queue.items {
      assert ItemPrivate(end, heard, id);
      ConsumedIsBound(end.audio, cfg.caps, end.queue.items[id], session, now);
    }
  }

  lemma ConsumedIsBound(audio: seq<Artifacts.Artifact>, caps: Artifacts.Caps, item: Item, session: Option<Id>, now: int)
    requires OneEach(audio) && forall i {:trigger BoundTo(audio, item, i)} :: BoundTo(audio, item, i)
    ensures var out := Artifacts.Consume(audio, caps, Fetched(item.audioRef), session, now).1;
            out.Some? ==> session == Some(item.token.sessionId) && out.value.owner == Some(OwnerOf(item.token))
  {
    var kept := Artifacts.Prune(audio, now - caps.ttl);
    PruneKeepsEntries(audio, now - caps.ttl);
    var k := Artifacts.Find(kept, Fetched(item.audioRef));
    if k < |kept| {
      var i :| 0 <= i < |audio| && audio[i] == kept[k];
      assert BoundTo(audio, item, i);
    }
  }
}
