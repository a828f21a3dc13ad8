/** What each playback operation answers and writes: exactly when audio is queued, which
    entry a poll plays, which acknowledgements count, and what is forgotten. */
module PlaybackOutcomes {
  import opened Collections
  import opened Sessions
  import opened Playback
  import opened PlaybackInvariant
  import PlaybackEffects

  // -------------------------------------------------------------- tombstones

  ghost predicate Reaches(t: Tombstone, token: Token) {
    t.sessionId == token.sessionId && token.generation <= t.through
  }

  /** Some tombstone of the session reaches this generation. */
  ghost predicate Buried(ts: seq<Tombstone>, token: Token) {
    exists k :: 0 <= k < |ts| && Reaches(ts[k], token)
  }

  lemma {:induction false} FloorIff(ts: seq<Tombstone>, token: Token)
    requires OnePerSession(ts)
    ensures token.generation <= Floor(ts, token.sessionId) <==> Buried(ts, token)
  {
    if ts != [] {
      FloorIff(ts[1..], token);
      if ts[0].sessionId == token.sessionId {
        forall k | 0 < k < |ts| ensures ts[k].sessionId != token.sessionId { assert ts[k] in ts[1..]; }
      } else {
        if k :| 0 <= k < |ts| && Reaches(ts[k], token) { assert ts[1..][k - 1] == ts[k]; }
        if k :| 0 <= k < |ts[1..]| && Reaches(ts[1..][k], token) { assert ts[k + 1] == ts[1..][k]; }
      }
    }
  }

  /** A tombstone only rises and becomes the newest; the others keep their order, and when
      there are too many the oldest goes. */
  lemma RememberExactly(ts: seq<Tombstone>, bound: nat, sessionId: Id, through: int)
    returns (others: seq<Tombstone>, raised: Tombstone)
    requires bound >= 1 && OnePerSession(ts) && |ts| <= bound
    ensures Subseq(others, ts) && forall t :: t in others <==> t in ts && t.sessionId != sessionId
    ensures raised.sessionId == sessionId && through <= raised.through
    ensures forall t :: t in ts && t.sessionId == sessionId ==> t.through <= raised.through
    ensures raised.through == through || raised.through == -1 || raised in ts
    ensures var r := Remember(ts, bound, sessionId, through);
            if |others| < bound then r == others + [raised] else others != [] && r == others[1..] + [raised]
  {
    others := DropTombstone(ts, sessionId);
    DropIsSubseq(ts, sessionId);
    raised := RaisedTombstone(ts, sessionId, through);
    RoomMade(others, raised, bound);
  }

  lemma RaisedTombstone(ts: seq<Tombstone>, sessionId: Id, through: int) returns (raised: Tombstone)
    requires OnePerSession(ts)
    ensures raised == Tombstone(sessionId, Max(Floor(ts, sessionId), through))
    ensures forall t :: t in ts && t.sessionId == sessionId ==> t.through <= raised.through
    ensures raised.through == through || raised.through == -1 || raised in ts
  {
    FloorIs(ts, sessionId);
    raised := Tombstone(sessionId, Max(Floor(ts, sessionId), through));
  }

  lemma RoomMade(others: seq<Tombstone>, raised: Tombstone, bound: nat)
    requires 1 <= bound && |others| <= bound
    ensures var grown := others + [raised];
            (if |grown| > bound then grown[|grown| - bound..] else grown)
            == if |others| < bound then others + [raised] else others[1..] + [raised]
  {
  }

  lemma {:induction false} DropIsSubseq(ts: seq<Tombstone>, sessionId: Id)
    ensures Subseq(DropTombstone(ts, sessionId), ts)
  {
    if ts != [] {
      DropIsSubseq(ts[1..], sessionId);
      assert ts == [ts[0]] + ts[1..];
      if ts[0].sessionId == sessionId {
        SubseqPrefixed(ts[0], DropTombstone(ts[1..], sessionId), ts[1..]);
      } else {
        SubseqConcat([ts[0]], DropTombstone(ts[1..], sessionId), ts[1..]);
      }
    }
  }

  /** The tombstone of a session there is. */
  lemma {:induction false} FloorIs(ts: seq<Tombstone>, sessionId: Id)
    requires OnePerSession(ts)
    ensures forall t :: t in ts && t.sessionId == sessionId ==> t.through == Floor(ts, sessionId)
    ensures Floor(ts, sessionId) == -1 || Tombstone(sessionId, Floor(ts, sessionId)) in ts
    ensures (exists t :: t in ts && t.sessionId == sessionId) ==> Tombstone(sessionId, Floor(ts, sessionId)) in ts
  {
    if ts != [] {
      FloorIs(ts[1..], sessionId);
      assert forall t :: t in ts <==> t == ts[0] || t in ts[1..];
    }
  }

  // ----------------------------------------------------------------- enqueueing

  /** The client and the reference are not blank, and the content is audio. */
  ghost predicate Playable(clientId: string, audioRef: string, contentType: string) {
    && (exists k :: 0 <= k < |clientId| && !IsSpace(clientId[k]))
    && (exists k :: 0 <= k < |audioRef| && !IsSpace(audioRef[k]))
    && |contentType| >= 6 && contentType[..6] == "audio/"
  }

  lemma {:induction false} BlankIff(s: string)
    ensures Strip(s) != "" <==> exists k :: 0 <= k < |s| && !IsSpace(s[k])
  {
    BlankLeft(s);
    if StripLeft(s) != "" {
      BlankRight(StripLeft(s));
    }
  }

  lemma {:induction false} BlankLeft(s: string)
    ensures StripLeft(s) != "" <==> exists k :: 0 <= k < |s| && !IsSpace(s[k])
  {
    if s != "" && IsSpace(s[0]) {
      BlankLeft(s[1..]);
      if k :| 0 <= k < |s| && !IsSpace(s[k]) { assert s[1..][k - 1] == s[k]; }
      if k :| 0 <= k < |s[1..]| && !IsSpace(s[1..][k]) { assert s[k + 1] == s[1..][k]; }
    }
  }

  lemma {:induction false} BlankRight(s: string)
    requires s != "" && !IsSpace(s[0])
    ensures StripRight(s) != ""
  {
    if IsSpace(s[|s| - 1]) { BlankRight(s[..|s| - 1]); }
  }

  /** What becomes of audio handed in, in the order it is looked at: nothing for work that
      is not current or was cancelled, an error for what cannot be played or has no room. */
  lemma EnqueueAnswers(q: Queue, b: Bounds, st: Store, clientId: string, token: Token, audioRef: string,
                       contentType: string, candidates: seq<Id>)
    requires QueueInv(q, b)
    ensures var out := Enqueue(q, b, st, clientId, token, audioRef, contentType, candidates).1;
            if !Accepts(st, token) then out == Ok(None)
            else if !Playable(clientId, audioRef, contentType) then out == Raised(InvalidAudio)
            else if Buried(q.tombstones, token) then out == Ok(None)
            else if |QueueOf(q, clientId)| >= b.maxQueued then out == Raised(QueueFull)
            else if UniqueId(candidates, q.items.Keys).None? then out == Raised(Fault.IdsExhausted)
            else out == Ok(UniqueId(candidates, q.items.Keys))
  {
    FloorIff(q.tombstones, token);
    BlankIff(clientId);
    BlankIff(audioRef);
  }

  /** Queued audio is a new item, last in its client's queue and last in the order; without
      an item nothing that waits, plays or is kept changes, though a queue for the client is
      opened before its room is looked at. */
  lemma EnqueueExactly(q: Queue, b: Bounds, st: Store, clientId: string, token: Token, audioRef: string,
                       contentType: string, candidates: seq<Id>)
    requires QueueInv(q, b)
    ensures var (r, out) := Enqueue(q, b, st, clientId, token, audioRef, contentType, candidates);
            && r.active == q.active && r.commands == q.commands && r.tombstones == q.tombstones
            && r.terminal == q.terminal
            && (forall c :: c != clientId ==> QueueOf(r, c) == QueueOf(q, c))
            && (out == Ok(None) || out == Raised(InvalidAudio) ==> r == q)
            && (out != Ok(None) && out != Raised(InvalidAudio) ==> r.queued.Keys == q.queued.Keys + {clientId})
            && if out.Ok? && out.value.Some? then
                 var id := out.value.value;
                 && id !in q.items && r.order == q.order + [id] && QueueOf(r, clientId) == QueueOf(q, clientId) + [id]
                 && r.items == q.items[id := Item(id, clientId, token, audioRef, contentType, Queued, None)]
               else r.items == q.items && r.order == q.order && QueueOf(r, clientId) == QueueOf(q, clientId)
  {
    PlaybackEffects.EnqueueEffect(q, b, st, clientId, token, audioRef, contentType, candidates);
  }

  // ----------------------------------------------------------------- polling

  /** The head entries up to `n` are of work no longer accepted. */
  ghost predicate StaleUpTo(q: Queue, st: Store, c: string, n: nat) {
    n <= |QueueOf(q, c)| && forall k :: 0 <= k < n ==> StaleEntry(q, st, QueueOf(q, c)[k])
  }

  ghost predicate StaleEntry(q: Queue, st: Store, id: Id) {
    id in q.items && !Accepts(st, q.items[id].token)
  }

  /** Entry `n` is the first that may be played: it becomes the client's active item, and
      the command says which audio it is. */
  ghost predicate PlaysEntry(q: Queue, st: Store, c: string, n: nat, r: Queue, out: Option<Command>) {
    && StaleUpTo(q, st, c, n) && n < |QueueOf(q, c)|
    && var id := QueueOf(q, c)[n];
    && id in q.items && Accepts(st, q.items[id].token)
    && QueueOf(r, c) == QueueOf(q, c)[n + 1..] && c in r.active && r.active[c] == id
    && out == Some(Command(Play, id, q.items[id].token, Some((q.items[id].audioRef, q.items[id].contentType))))
  }

  /** Nothing waits that may be played: the whole queue was stale and is emptied. */
  ghost predicate AllStale(q: Queue, st: Store, c: string, r: Queue, out: Option<Command>) {
    StaleUpTo(q, st, c, |QueueOf(q, c)|) && QueueOf(r, c) == [] && c !in r.active && out.None?
  }

  /** `mid` is `q` with the head of the client's queue dropped. */
  ghost predicate HeadDropped(q: Queue, mid: Queue, c: string) {
    && QueueOf(q, c) != [] && QueueOf(mid, c) == QueueOf(q, c)[1..]
    && forall id :: id in QueueOf(mid, c) && id in mid.items ==> id in q.items && mid.items[id] == q.items[id]
  }

  lemma StaleOneMore(q: Queue, mid: Queue, st: Store, c: string, n: nat)
    requires HeadDropped(q, mid, c) && StaleEntry(q, st, QueueOf(q, c)[0]) && StaleUpTo(mid, st, c, n)
    ensures StaleUpTo(q, st, c, n + 1)
  {
    forall k | 0 <= k < n + 1 ensures StaleEntry(q, st, QueueOf(q, c)[k]) {
      if k > 0 { assert QueueOf(mid, c)[k - 1] == QueueOf(q, c)[k]; }
    }
  }

  lemma PlaysOneLater(q: Queue, mid: Queue, st: Store, c: string, n: nat, r: Queue, out: Option<Command>)
    requires HeadDropped(q, mid, c) && StaleEntry(q, st, QueueOf(q, c)[0])
    requires PlaysEntry(mid, st, c, n, r, out) || (n == |QueueOf(mid, c)| && AllStale(mid, st, c, r, out))
    ensures PlaysEntry(q, st, c, n + 1, r, out) || (n + 1 == |QueueOf(q, c)| && AllStale(q, st, c, r, out))
  {
    StaleOneMore(q, mid, st, c, n);
  }

  lemma DropsHead(q: Queue, b: Bounds, c: string)
    requires QueueInv(q, b) && QueueOf(q, c) != [] && QueueOf(q, c)[0] in q.items
    ensures HeadDropped(q, SetOver(Pop(q, c), b, q.items[q.queued[c][0]], PlaybackState.Cancelled, None), c)
  {
    HeadIsQueued(q, b, c);
    var popped := Pop(q, c);
    forall k ensures StoredOk(popped, k) { assert StoredOk(q, k); }
    SetOverEffect(popped, b, q.items[q.queued[c][0]], PlaybackState.Cancelled, None);
    assert ClientOk(q, b, c);
    assert QueueOf(q, c) == [QueueOf(q, c)[0]] + QueueOf(q, c)[1..];
    assert QueueOf(q, c)[0] !in QueueOf(q, c)[1..];
  }

  lemma {:induction false} PlayNextExactly(q: Queue, b: Bounds, st: Store, c: string) returns (n: nat)
    requires QueueInv(q, b) && c in q.queued && c !in q.active && CommandsOf(q, c) == []
    ensures var (r, out) := PlayNext(q, b, st, c);
            PlaysEntry(q, st, c, n, r, out) || (n == |QueueOf(q, c)| && AllStale(q, st, c, r, out))
    decreases |QueueOf(q, c)|
  {
    n := 0;
    if QueueOf(q, c) != [] {
      HeadIsQueued(q, b, c);
      var item := q.items[q.queued[c][0]];
      if !Accepts(st, item.token) {
        DropHeadKeeps(q, b, c);
        DropsHead(q, b, c);
        var mid := SetOver(Pop(q, c), b, item, PlaybackState.Cancelled, None);
        ExpireKeepsQueues(Pop(q, c), b, item, PlaybackState.Cancelled, None);
        var rest := PlayNextExactly(mid, b, st, c);
        n := rest + 1;
        PlaysOneLater(q, mid, st, c, rest, PlayNext(q, b, st, c).0, PlayNext(q, b, st, c).1);
      }
    }
  }

  /** What a poll hands out: a waiting command, the oldest first; nothing while the client
      plays; else the first entry of its queue that is still accepted, all before it being
      dropped. */
  lemma PollExactly(q: Queue, b: Bounds, st: Store, c: string) returns (n: nat)
    requires QueueInv(q, b)
    ensures var (r, out) := NextCommand(q, b, st, c);
            if CommandsOf(q, c) != [] then
              && out == Some(CommandsOf(q, c)[0]) && CommandsOf(r, c) == CommandsOf(q, c)[1..]
              && r.items == q.items && r.active == q.active && r.queued == q.queued
            else if c in q.active then out.None? && r.items == q.items && r.active == q.active && r.queued == q.queued
            else PlaysEntry(q, st, c, n, r, out) || (n == |QueueOf(q, c)| && AllStale(q, st, c, r, out))
  {
    n := 0;
    if CommandsOf(q, c) == [] && c !in q.active {
      DefaultsKeep(q, b, c);
      var q0 := q.(commands := q.commands[c := CommandsOf(q, c)]);
      DefaultsKeep(q0, b, c);
      var q1 := q0.(queued := q0.queued[c := QueueOf(q, c)]);
      n := PlayNextExactly(q1, b, st, c);
      SameEntries(q, q1, st, c, n);
    }
  }

  lemma SameEntries(q: Queue, q1: Queue, st: Store, c: string, n: nat)
    requires q1.items == q.items && QueueOf(q1, c) == QueueOf(q, c)
    ensures StaleUpTo(q1, st, c, n) ==> StaleUpTo(q, st, c, n)
  {
    if StaleUpTo(q1, st, c, n) {
      forall k | 0 <= k < n ensures StaleEntry(q, st, QueueOf(q, c)[k]) {
        assert StaleEntry(q1, st, QueueOf(q1, c)[k]);
      }
    }
  }

  // ---------------------------------------------------------- acknowledgements

  /** The ways an acknowledgement of live work counts: started once by the client whose
      turn it is, while the work is current; ended by the client that plays it, `Completed`
      only after `Started`. */
  ghost predicate Counts(q: Queue, st: Store, ack: Ack, item: Item) {
    && ack.clientId in q.active && q.active[ack.clientId] == ack.playbackId
    && match ack.state
       case Queued => false
       case Started => item.state == Started || (item.state == Queued && Accepts(st, item.token))
       case Completed => item.state == Started
       case Failed => true
       case Cancelled => true
  }

  /** Which acknowledgements are accepted: those of the item's own client that repeat the
      recorded end, or count for live work. */
  lemma AckAnswers(q: Queue, b: Bounds, st: Store, ack: Ack)
    requires QueueInv(q, b)
    ensures Acknowledge(q, b, st, ack).1 <==>
              && ack.playbackId in q.items && q.items[ack.playbackId].clientId == ack.clientId
              && var item := q.items[ack.playbackId];
                 if item.state == PlaybackState.Completed || item.state == PlaybackState.Failed
                    || item.state == PlaybackState.Cancelled
                 then ack.state == item.state
                 else Counts(q, st, ack, item)
  {
  }

  /** What an accepted acknowledgement writes: nothing when it repeats what is known; the
      state `Started`; or the end reported, with the code cut to 256 characters, and the
      client's slot is free.  A refused one writes nothing. */
  lemma AckExactly(q: Queue, b: Bounds, st: Store, ack: Ack)
    requires QueueInv(q, b)
    ensures var (r, ok) := Acknowledge(q, b, st, ack);
            && (!ok ==> r == q)
            && (ok && q.items[ack.playbackId].state == ack.state ==> r == q)
            && (ok && q.items[ack.playbackId].state != ack.state ==>
                  var item := q.items[ack.playbackId];
                  && r.queued == q.queued && r.commands == q.commands && r.tombstones == q.tombstones
                  && (forall id ::
                        id in r.items && id != ack.playbackId ==> id in q.items && r.items[id] == q.items[id])
                  && ack.playbackId in r.items
                  && if ack.state == Started then
                       && r.active == q.active && r.items[ack.playbackId] == item.(state := Started)
                       && r.items.Keys == q.items.Keys
                     else
                       && r.active == q.active - {ack.clientId}
                       && r.items[ack.playbackId].state == ack.state
                       && CutTo256(ack.failure, r.items[ack.playbackId].failure)
                       && r.items[ack.playbackId] == item.(state := ack.state,
                                                           failure := r.items[ack.playbackId].failure))
  {
    if Acknowledge(q, b, st, ack).1 && !Over(q.items[ack.playbackId].state) {
      assert StoredOk(q, ack.playbackId);
      if !ack.state.Started? { EndActiveKeeps(q, b, {}, q.items[ack.playbackId], ack.state, ack.failure); }
    }
  }

  /** No code or an empty one is none; a long one is cut. */
  ghost predicate CutTo256(code: Option<string>, kept: Option<string>) {
    if code.None? || code.value == "" then kept.None?
    else kept.Some? && kept.value <= code.value && |kept.value| == if |code.value| <= 256 then |code.value| else 256
  }

  // --------------------------------------------------------- what is forgotten

  /** Recording an end: the newest of the terminal record; when it is too long the oldest
      goes, and its item with it. */
  lemma RecordExactly(q: Queue, b: Bounds, item: Item, state: PlaybackState, code: Option<string>)
    requires StorageOk(q, b)
    requires item.id in q.items && q.items[item.id] == item && !Over(item.state) && Over(state)
    ensures var r := SetOver(q, b, item, state, code);
            if |q.terminal| < b.maxTerminal then r.terminal == q.terminal + [item.id] && r.items.Keys == q.items.Keys
            else
              && q.terminal != [] && r.terminal == q.terminal[1..] + [item.id]
              && r.items.Keys == q.items.Keys - {q.terminal[0]}
  {
    var marked := Mark(q, item, state, code);
    assert StoredOk(q, item.id);
    if |q.terminal| >= b.maxTerminal {
      var oldest := q.terminal[0];
      assert marked.terminal[0] == oldest && oldest in q.terminal;
      assert StoredOk(q, oldest);
      ExpireOne(marked, b);
      assert marked.terminal[1..] == q.terminal[1..] + [item.id];
    }
  }

  // ----------------------------------------------------------- cancellations

  /** What was cancelled is listed in the order in which it was queued. */
  lemma {:induction false} CancelledInOrder(q: Queue, b: Bounds, sessionId: Id, snapshot: seq<Item>)
    ensures Subseq(CancelItems(q, b, sessionId, snapshot).1, snapshot)
  {
    if snapshot != [] {
      var n := |snapshot| - 1;
      CancelledInOrder(q, b, sessionId, snapshot[..n]);
      var cancelled := CancelItems(q, b, sessionId, snapshot[..n]).1;
      assert snapshot == snapshot[..n] + [snapshot[n]];
      if Cancels(snapshot[n], sessionId) {
        SubseqAppend(cancelled, snapshot[..n], snapshot[n]);
      } else if cancelled != [] && cancelled[|cancelled| - 1] == snapshot[n] {
        SubseqDropLast(cancelled, snapshot[..n]);
      }
    }
  }

  /** A command waits behind the others, once per kind and item; of too many the newest
      are kept. */
  lemma AppendExactly(q: Queue, b: Bounds, c: string, command: Command)
    requires b.maxCommands >= 1 && |CommandsOf(q, c)| <= b.maxCommands
    ensures var r := AppendCommand(q, b, c, command);
            && r.items == q.items && r.order == q.order && r.queued == q.queued && r.active == q.active
            && r.tombstones == q.tombstones && r.terminal == q.terminal
            && (forall d :: d != c ==> CommandsOf(r, d) == CommandsOf(q, d))
            && var waiting := CommandsOf(q, c);
               if exists k :: 0 <= k < |waiting| && waiting[k].kind == command.kind
                              && waiting[k].playbackId == command.playbackId
               then CommandsOf(r, c) == waiting
               else if |waiting| < b.maxCommands then CommandsOf(r, c) == waiting + [command]
               else CommandsOf(r, c) == waiting[1..] + [command]
  {
    var waiting := CommandsOf(q, c);
    assert (exists k :: k in waiting && k.kind == command.kind && k.playbackId == command.playbackId)
      <==> exists k :: 0 <= k < |waiting| && waiting[k].kind == command.kind
                       && waiting[k].playbackId == command.playbackId;
    if |waiting| >= b.maxCommands { assert (waiting + [command])[1..] == waiting[1..] + [command]; }
  }
}
