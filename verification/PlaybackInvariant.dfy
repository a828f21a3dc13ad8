/** Every playback operation keeps the representation invariant. */
module PlaybackInvariant {
  import opened Collections
  import opened Sessions
  import opened Playback

  function Mark(q: Queue, item: Item, state: PlaybackState, code: Option<string>): Queue {
    q.(items := q.items[item.id := item.(state := state, failure := BoundedCode(code))],
       terminal := q.terminal + [item.id])
  }

  lemma ExpireOne(q: Queue, b: Bounds)
    requires q.terminal != [] && |q.terminal| == b.maxTerminal + 1
    requires q.terminal[0] in q.items && Over(q.items[q.terminal[0]].state)
    ensures Expire(q, b) == RemoveItem(q.(terminal := q.terminal[1..]), q.terminal[0])
  {
  }

  /** Recording an end: the item stays, at most one older terminal item goes. */
  lemma SetOverEffect(q: Queue, b: Bounds, item: Item, state: PlaybackState, code: Option<string>)
    requires StorageOk(q, b)
    requires item.id in q.items && q.items[item.id] == item && !Over(item.state) && Over(state)
    ensures var r := SetOver(q, b, item, state, code);
            && r.queued == q.queued && r.active == q.active && r.commands == q.commands && r.tombstones == q.tombstones
            && item.id in r.items && r.items[item.id] == item.(state := state, failure := BoundedCode(code))
            && (forall id :: id in r.items && id != item.id ==> id in q.items && r.items[id] == q.items[id])
            && (forall id :: Live(r, id) <==> Live(q, id) && id != item.id)
            && StorageOk(r, b)
  {
    var marked := Mark(q, item, state, code);
    assert StoredOk(q, item.id);
    DistinctAppend(q.terminal, item.id);
    if |marked.terminal| > b.maxTerminal {
      var oldest := marked.terminal[0];
      assert oldest == q.terminal[0] && oldest in q.terminal;
      assert StoredOk(q, oldest);
      ExpireOne(marked, b);
      var r := RemoveItem(marked.(terminal := marked.terminal[1..]), oldest);
      WithoutDistinct(marked.order, oldest);
      forall id ensures StoredOk(r, id) {
        assert StoredOk(q, id);
        assert id in r.terminal <==> id in marked.terminal && id != oldest;
      }
    } else {
      forall id ensures StoredOk(marked, id) {
        assert StoredOk(q, id);
      }
    }
  }

  /** Adding empty dictionary entries (`setdefault`) changes nothing that matters. */
  lemma DefaultsKeep(q: Queue, b: Bounds, c: string)
    requires QueueInv(q, b)
    ensures QueueInv(q.(queued := q.queued[c := QueueOf(q, c)]), b)
    ensures QueueInv(q.(commands := q.commands[c := CommandsOf(q, c)]), b)
  {
    var r := q.(queued := q.queued[c := QueueOf(q, c)]);
    SameViewKeeps(q, r, b);
    var s := q.(commands := q.commands[c := CommandsOf(q, c)]);
    SameViewKeeps(q, s, b);
  }

  lemma SameViewKeeps(q: Queue, r: Queue, b: Bounds)
    requires QueueInv(q, b)
    requires r.items == q.items && r.order == q.order && r.terminal == q.terminal && r.active == q.active
             && r.tombstones == q.tombstones
    requires q.queued.Keys <= r.queued.Keys
    requires forall c :: QueueOf(r, c) == QueueOf(q, c)
    requires forall c :: CommandsOf(r, c) == CommandsOf(q, c)
    ensures QueueInv(r, b)
  {
    forall id ensures StoredOk(r, id) { assert StoredOk(q, id); }
    forall id ensures PlacedOk(r, id) { assert PlacedOk(q, id); }
    forall c, id ensures EntryOk(r, {}, c, id) { assert EntryOk(q, {}, c, id); }
    forall c ensures ClientOk(r, b, c) { assert ClientOk(q, b, c); }
  }

  lemma AddItemKeeps(q: Queue, b: Bounds, item: Item)
    requires QueueInv(q, b)
    requires item.id !in q.items && item.state == Queued && |QueueOf(q, item.clientId)| < b.maxQueued
    ensures QueueInv(AddItem(q, item), b)
  {
    var r := AddItem(q, item);
    var id := item.id;
    assert StoredOk(q, id);
    assert forall c :: EntryOk(q, {}, c, id);
    DistinctAppend(q.order, id);
    DistinctAppend(QueueOf(q, item.clientId), id) by {
      assert ClientOk(q, b, item.clientId);
      assert EntryOk(q, {}, item.clientId, id);
    }
    forall k ensures StoredOk(r, k) { assert StoredOk(q, k); }
    forall k ensures PlacedOk(r, k) { assert PlacedOk(q, k); }
    forall c ensures ClientOk(r, b, c) { assert ClientOk(q, b, c); }
    forall c, k ensures EntryOk(r, {}, c, k) {
      assert EntryOk(q, {}, c, k);
      assert ClientOk(q, b, c);
    }
  }

  lemma EnqueueKeeps(q: Queue, b: Bounds, st: Store, clientId: string, token: Token, audioRef: string,
                     contentType: string, candidates: seq<Id>)
    requires QueueInv(q, b)
    ensures QueueInv(Enqueue(q, b, st, clientId, token, audioRef, contentType, candidates).0, b)
  {
    var out := Enqueue(q, b, st, clientId, token, audioRef, contentType, candidates).1;
    DefaultsKeep(q, b, clientId);
    if out.Ok? && out.value.Some? {
      AddItemKeeps(q, b, Item(out.value.value, clientId, token, audioRef, contentType, Queued, None));
    }
  }

  /** An entry at the head of a client's queue is always a stored, queued item. */
  lemma HeadIsQueued(q: Queue, b: Bounds, c: string)
    requires QueueInv(q, b) && QueueOf(q, c) != []
    ensures var id := QueueOf(q, c)[0];
            id in q.items && q.items[id].state == Queued && q.items[id].clientId == c && q.items[id].id == id
  {
    assert EntryOk(q, {}, c, QueueOf(q, c)[0]);
    assert StoredOk(q, QueueOf(q, c)[0]);
  }

  function Pop(q: Queue, c: string): Queue
    requires c in q.queued && q.queued[c] != []
  {
    q.(queued := q.queued[c := q.queued[c][1..]])
  }

  lemma PopEntries(q: Queue, c: string, id: Id, d: string)
    requires c in q.queued && q.queued[c] != [] && Distinct(q.queued[c])
    ensures id in QueueOf(Pop(q, c), d) <==> id in QueueOf(q, d) && !(d == c && id == q.queued[c][0])
  {
    if d == c {
      var s := q.queued[c];
      assert s == [s[0]] + s[1..];
    }
  }

  lemma DropHeadKeeps(q: Queue, b: Bounds, c: string)
    requires QueueInv(q, b) && QueueOf(q, c) != []
    ensures QueueOf(q, c)[0] in q.items
    ensures QueueInv(SetOver(Pop(q, c), b, q.items[q.queued[c][0]], PlaybackState.Cancelled, None), b)
  {
    HeadIsQueued(q, b, c);
    var id := q.queued[c][0];
    var popped := Pop(q, c);
    forall k ensures StoredOk(popped, k) { assert StoredOk(q, k); }
    SetOverEffect(popped, b, q.items[id], PlaybackState.Cancelled, None);
    var r := SetOver(popped, b, q.items[id], PlaybackState.Cancelled, None);
    assert ClientOk(q, b, c);
    assert EntryOk(q, {}, c, id);
    forall d, k ensures EntryOk(r, {}, d, k) {
      assert EntryOk(q, {}, d, k);
      PopEntries(q, c, k, d);
    }
    forall k ensures PlacedOk(r, k) {
      assert PlacedOk(q, k);
      if Live(r, k) { PopEntries(q, c, k, r.items[k].clientId); }
    }
    forall d ensures ClientOk(r, b, d) {
      assert ClientOk(q, b, d);
      if d in q.active { assert StoredOk(q, q.active[d]); }
    }
  }

  lemma PlayHeadKeeps(q: Queue, b: Bounds, c: string)
    requires QueueInv(q, b) && QueueOf(q, c) != [] && c !in q.active && CommandsOf(q, c) == []
    ensures QueueInv(Pop(q, c).(active := q.active[c := q.queued[c][0]]), b)
  {
    HeadIsQueued(q, b, c);
    var id := q.queued[c][0];
    var r := Pop(q, c).(active := q.active[c := id]);
    assert ClientOk(q, b, c);
    forall k ensures StoredOk(r, k) { assert StoredOk(q, k); }
    forall d, k ensures EntryOk(r, {}, d, k) {
      assert EntryOk(q, {}, d, k);
      PopEntries(q, c, k, d);
    }
    forall k ensures PlacedOk(r, k) {
      assert PlacedOk(q, k);
      if Live(r, k) { PopEntries(q, c, k, r.items[k].clientId); }
    }
    forall d ensures ClientOk(r, b, d) { assert ClientOk(q, b, d); }
  }

  lemma {:induction false} PlayNextKeeps(q: Queue, b: Bounds, st: Store, c: string)
    requires QueueInv(q, b) && c in q.queued && c !in q.active && CommandsOf(q, c) == []
    ensures QueueInv(PlayNext(q, b, st, c).0, b)
    decreases |QueueOf(q, c)|
  {
    if QueueOf(q, c) != [] {
      HeadIsQueued(q, b, c);
      var item := q.items[q.queued[c][0]];
      if Accepts(st, item.token) {
        PlayHeadKeeps(q, b, c);
      } else {
        DropHeadKeeps(q, b, c);
        ExpireKeepsQueues(Pop(q, c), b, item, PlaybackState.Cancelled, None);
        PlayNextKeeps(SetOver(Pop(q, c), b, item, PlaybackState.Cancelled, None), b, st, c);
      }
    }
  }

  lemma DeliverKeeps(q: Queue, b: Bounds, c: string)
    requires QueueInv(q, b) && CommandsOf(q, c) != []
    ensures QueueInv(q.(commands := q.commands[c := CommandsOf(q, c)[1..]]), b)
    ensures CommandsOf(q, c)[0].kind == Stop && CommandsOf(q, c)[1..] == []
  {
    var r := q.(commands := q.commands[c := CommandsOf(q, c)[1..]]);
    assert ClientOk(q, b, c);
    forall id ensures StoredOk(r, id) { assert StoredOk(q, id); }
    forall id ensures PlacedOk(r, id) { assert PlacedOk(q, id); }
    forall d, id ensures EntryOk(r, {}, d, id) { assert EntryOk(q, {}, d, id); }
    forall d ensures ClientOk(r, b, d) { assert ClientOk(q, b, d); }
  }

  lemma NextCommandKeeps(q: Queue, b: Bounds, st: Store, c: string)
    requires QueueInv(q, b)
    ensures QueueInv(NextCommand(q, b, st, c).0, b)
  {
    DefaultsKeep(q, b, c);
    if CommandsOf(q, c) != [] {
      DeliverKeeps(q, b, c);
      assert q.commands[c := CommandsOf(q, c)][c := CommandsOf(q, c)[1..]] == q.commands[c := CommandsOf(q, c)[1..]];
    } else if c !in q.active {
      var q0 := q.(commands := q.commands[c := CommandsOf(q, c)]);
      DefaultsKeep(q0, b, c);
      PlayNextKeeps(q0.(queued := q0.queued[c := QueueOf(q, c)]), b, st, c);
    }
  }

  /** The active item of a client ends; other entries keep their places. */
  lemma EndActiveKeeps(q: Queue, b: Bounds, dirty: set<string>, item: Item, state: PlaybackState, code: Option<string>)
    requires MidInv(q, b, dirty)
    requires item.id in q.items && q.items[item.id] == item && !Over(item.state) && Over(state)
    requires IsActive(q, item.clientId, item.id)
    ensures MidInv(EndActive(q, b, item, state, code), b, dirty)
    ensures var r := EndActive(q, b, item, state, code);
            && r.queued == q.queued && r.commands == q.commands && r.tombstones == q.tombstones
            && r.active == q.active - {item.clientId}
            && (forall id :: Live(r, id) <==> Live(q, id) && id != item.id)
            && (forall id :: id in r.items && id != item.id ==> id in q.items && r.items[id] == q.items[id])
            && item.id in r.items && r.items[item.id] == item.(state := state, failure := BoundedCode(code))
  {
    SetOverEffect(q, b, item, state, code);
    var ended := SetOver(q, b, item, state, code);
    var r := EndActive(q, b, item, state, code);
    forall k ensures StoredOk(r, k) { assert StoredOk(ended, k); }
    forall d, k ensures EntryOk(r, dirty, d, k) {
      assert EntryOk(q, dirty, d, k);
      assert EntryOk(q, dirty, item.clientId, item.id);
    }
    forall k ensures PlacedOk(r, k) { assert PlacedOk(q, k); }
    forall d ensures ClientOk(r, b, d) { assert ClientOk(q, b, d); }
  }

  lemma StartedKeeps(q: Queue, b: Bounds, id: Id)
    requires QueueInv(q, b) && Live(q, id) && IsActive(q, q.items[id].clientId, id)
    ensures QueueInv(q.(items := q.items[id := q.items[id].(state := Started)]), b)
  {
    var r := q.(items := q.items[id := q.items[id].(state := Started)]);
    forall k ensures StoredOk(r, k) { assert StoredOk(q, k); }
    forall d, k ensures EntryOk(r, {}, d, k) { assert EntryOk(q, {}, d, k); }
    forall k ensures PlacedOk(r, k) { assert PlacedOk(q, k); }
    forall d ensures ClientOk(r, b, d) { assert ClientOk(q, b, d); }
  }

  lemma AcknowledgeKeeps(q: Queue, b: Bounds, st: Store, ack: Ack)
    requires QueueInv(q, b)
    ensures QueueInv(Acknowledge(q, b, st, ack).0, b)
  {
    var r := Acknowledge(q, b, st, ack).0;
    if r != q {
      assert StoredOk(q, ack.playbackId);
      if ack.state.Started? {
        StartedKeeps(q, b, ack.playbackId);
      } else {
        EndActiveKeeps(q, b, {}, q.items[ack.playbackId], ack.state, ack.failure);
      }
    }
  }

  // ------------------------------------------------------------ cancellation

  lemma QueuedItemEnds(q: Queue, b: Bounds, dirty: set<string>, item: Item)
    requires MidInv(q, b, dirty)
    requires item.id in q.items && q.items[item.id] == item && !Over(item.state)
    requires !IsActive(q, item.clientId, item.id)
    ensures MidInv(SetOver(q, b, item, PlaybackState.Cancelled, None), b, dirty + {item.clientId})
  {
    SetOverEffect(q, b, item, PlaybackState.Cancelled, None);
    var r := SetOver(q, b, item, PlaybackState.Cancelled, None);
    forall d, k ensures EntryOk(r, dirty + {item.clientId}, d, k) { assert EntryOk(q, dirty, d, k); }
    forall k ensures PlacedOk(r, k) { assert PlacedOk(q, k); }
    forall d ensures ClientOk(r, b, d) { assert ClientOk(q, b, d); }
  }

  /** A STOP is put into an empty command queue, so nothing is trimmed or merged. */
  lemma AppendToIdle(q: Queue, b: Bounds, dirty: set<string>, more: set<string>, c: string, command: Command)
    requires MidInv(q, b, dirty) && c !in q.active && CommandsOf(q, c) == [] && command.kind == Stop && dirty <= more
    ensures AppendCommand(q, b, c, command) == q.(commands := q.commands[c := [command]])
    ensures MidInv(AppendCommand(q, b, c, command), b, more)
  {
    var r := q.(commands := q.commands[c := [command]]);
    assert [] + [command] == [command];
    forall k ensures StoredOk(r, k) { assert StoredOk(q, k); }
    forall d, k ensures EntryOk(r, more, d, k) { assert EntryOk(q, dirty, d, k); }
    forall k ensures PlacedOk(r, k) { assert PlacedOk(q, k); }
    forall d ensures ClientOk(r, b, d) { assert ClientOk(q, b, d); }
  }

  lemma CancelItemKeeps(q: Queue, b: Bounds, dirty: set<string>, item: Item)
    requires MidInv(q, b, dirty)
    requires item.id in q.items && q.items[item.id] == item && !Over(item.state)
    ensures var r := CancelItem(q, b, item);
            && MidInv(r, b, dirty + {item.clientId})
            && (forall id :: Live(r, id) <==> Live(q, id) && id != item.id)
            && (forall id :: id in r.items && id != item.id ==> id in q.items && r.items[id] == q.items[id])
            && (item.id in r.items ==> r.items[item.id] == item.(state := PlaybackState.Cancelled, failure := None))
            && r.queued == q.queued && r.tombstones == q.tombstones
            && r.active == (if IsActive(q, item.clientId, item.id) then q.active - {item.clientId} else q.active)
            && r.commands == (if IsActive(q, item.clientId, item.id)
                              then q.commands[item.clientId := [Command(Stop, item.id, item.token, None)]]
                                else q.commands)
  {
    if IsActive(q, item.clientId, item.id) {
      EndActiveKeeps(q, b, dirty, item, PlaybackState.Cancelled, None);
      var ended := EndActive(q, b, item, PlaybackState.Cancelled, None);
      assert ClientOk(q, b, item.clientId);
      AppendToIdle(ended, b, dirty, dirty + {item.clientId}, item.clientId, Command(Stop, item.id, item.token, None));
    } else {
      SetOverEffect(q, b, item, PlaybackState.Cancelled, None);
      QueuedItemEnds(q, b, dirty, item);
    }
  }

  function ClientsOf(items: seq<Item>): set<string> {
    set i | i in items :: i.clientId
  }

  /** From `q` to `r`, client `c` either kept its slot and its waiting commands,
      or its active item ended and one STOP for that item waits. */
  ghost predicate SlotStep(q: Queue, r: Queue, c: string) {
    if c in q.active && !Live(r, q.active[c])
    then c !in r.active && |CommandsOf(r, c)| == 1
         && q.active[c] in q.items
         && CommandsOf(r, c)[0] == Command(Stop, q.active[c], q.items[q.active[c]].token, None)
    else (c in r.active <==> c in q.active)
         && (c in q.active ==> r.active[c] == q.active[c])
         && CommandsOf(r, c) == CommandsOf(q, c)
  }

  /** An item is as it was, or was live work of the session and is `Cancelled`, without a
      code and otherwise the same. */
  predicate OnlyCancelled(before: Item, after: Item, sessionId: Id) {
    || after == before
    || (before.token.sessionId == sessionId && (before.state == Queued || before.state == Started)
        && after == before.(state := PlaybackState.Cancelled, failure := None))
  }

  ghost predicate ItemsOnlyCancelled(q: Queue, r: Queue, sessionId: Id) {
    forall id {:trigger id in r.items} :: id in r.items ==>
      id in q.items && OnlyCancelled(q.items[id], r.items[id], sessionId)
  }

  lemma ItemsAfterCancel(q: Queue, b: Bounds, r: Queue, dirty: set<string>, item: Item, sessionId: Id)
    requires MidInv(r, b, dirty) && ItemsOnlyCancelled(q, r, sessionId)
    requires item.id in r.items && r.items[item.id] == item && Cancels(item, sessionId)
    ensures ItemsOnlyCancelled(q, CancelItem(r, b, item), sessionId)
  {
    CancelItemKeeps(r, b, dirty, item);
  }

  /** The live items of `r` are live items of `q`, as they were. */
  ghost predicate WalkLive(q: Queue, r: Queue) {
    forall id :: Live(r, id) ==> Live(q, id) && r.items[id] == q.items[id]
  }

  /** What was cancelled are items of `q` that belonged to the session and were live. */
  ghost predicate WalkCancelled(q: Queue, sessionId: Id, cancelled: seq<Item>) {
    forall i :: i in cancelled ==> i.id in q.items && i == q.items[i.id] && Cancels(i, sessionId)
  }

  /** Whatever ended on the way is listed as cancelled. */
  ghost predicate WalkListed(q: Queue, r: Queue, cancelled: seq<Item>) {
    forall id :: Live(q, id) && !Live(r, id) ==> q.items[id] in cancelled
  }

  /** Nothing of the session is live up to `n`, and nothing was touched from `n` on. */
  ghost predicate WalkReached(q: Queue, sessionId: Id, n: nat, r: Queue)
    requires n <= |q.order|
  {
    && (forall i ::
          0 <= i < n && Live(r, q.order[i]) && q.order[i] in q.items ==>
              q.items[q.order[i]].token.sessionId != sessionId)
    && (forall i :: n <= i < |q.order| && Live(q, q.order[i]) ==> Live(r, q.order[i]))
  }

  /** What the walk over the first `n` items of the snapshot of `q` has done. */
  ghost predicate WalkOk(q: Queue, b: Bounds, sessionId: Id, n: nat, r: Queue, cancelled: seq<Item>)
    requires n <= |q.order|
  {
    && MidInv(r, b, ClientsOf(cancelled))
    && r.queued == q.queued && r.tombstones == q.tombstones
    && WalkLive(q, r) && WalkCancelled(q, sessionId, cancelled) && WalkListed(q, r, cancelled)
    && WalkReached(q, sessionId, n, r)
  }

  ghost predicate SlotsOk(q: Queue, r: Queue) {
    forall c {:trigger SlotStep(q, r, c)} :: SlotStep(q, r, c)
  }

  lemma SlotAfterCancel(q: Queue, b: Bounds, r: Queue, dirty: set<string>, item: Item, c: string)
    requires QueueInv(q, b) && MidInv(r, b, dirty)
    requires item.id in r.items && r.items[item.id] == item && !Over(item.state)
    requires item.id in q.items && q.items[item.id] == item
    requires SlotsOk(q, r)
    ensures SlotStep(q, CancelItem(r, b, item), c)
  {
    CancelItemKeeps(r, b, dirty, item);
    assert SlotStep(q, r, c);
    assert ClientOk(q, b, c) && ClientOk(r, b, c);
  }

  /** `r'` is `r` with the live item `item` ended. */
  ghost predicate OneEnded(r: Queue, r': Queue, item: Item) {
    && (forall id :: Live(r', id) <==> Live(r, id) && id != item.id)
    && (forall id :: id in r'.items && id != item.id ==> id in r.items && r'.items[id] == r.items[id])
  }

  lemma WalkLiveStep(q: Queue, r: Queue, r': Queue, item: Item)
    requires WalkLive(q, r) && OneEnded(r, r', item)
    ensures WalkLive(q, r')
  {
  }

  lemma WalkListedStep(q: Queue, r: Queue, r': Queue, item: Item, cancelled: seq<Item>)
    requires WalkListed(q, r, cancelled) && OneEnded(r, r', item) && item.id in q.items && q.items[item.id] == item
    ensures WalkListed(q, r', cancelled + [item])
  {
  }

  lemma WalkReachedStep(q: Queue, sessionId: Id, n: nat, r: Queue, r': Queue, item: Item)
    requires n < |q.order| && WalkReached(q, sessionId, n, r) && OneEnded(r, r', item) && Distinct(q.order)
             && q.order[n] == item.id
    ensures WalkReached(q, sessionId, n + 1, r')
  {
    assert forall i :: n < i < |q.order| ==> q.order[i] != q.order[n];
  }

  lemma WalkStep(q: Queue, b: Bounds, sessionId: Id, n: nat, r: Queue, cancelled: seq<Item>)
    requires QueueInv(q, b) && n < |q.order| && WalkOk(q, b, sessionId, n, r, cancelled)
    requires q.order[n] in q.items && Cancels(q.items[q.order[n]], sessionId)
    ensures var item := q.items[q.order[n]];
            WalkOk(q, b, sessionId, n + 1, CancelItem(r, b, item), cancelled + [item])
  {
    var item := q.items[q.order[n]];
    assert StoredOk(q, q.order[n]);
    assert Live(q, q.order[n]) && Live(r, q.order[n]);
    CancelItemKeeps(r, b, ClientsOf(cancelled), item);
    var r' := CancelItem(r, b, item);
    assert ClientsOf(cancelled + [item]) == ClientsOf(cancelled) + {item.clientId};
    WalkLiveStep(q, r, r', item);
    WalkListedStep(q, r, r', item, cancelled);
    WalkReachedStep(q, sessionId, n, r, r', item);
  }

  lemma {:induction false} CancelItemsKeeps(q: Queue, b: Bounds, sessionId: Id, n: nat)
    requires QueueInv(q, b) && n <= |q.order| && Ordered(q)
    ensures var (r, cancelled) := CancelItems(q, b, sessionId, Snapshot(q)[..n]);
            WalkOk(q, b, sessionId, n, r, cancelled) && SlotsOk(q, r) && ItemsOnlyCancelled(q, r, sessionId)
  {
    if n > 0 {
      CancelItemsKeeps(q, b, sessionId, n - 1);
      assert Snapshot(q)[..n][..n - 1] == Snapshot(q)[..n - 1];
      var (r0, cancelled0) := CancelItems(q, b, sessionId, Snapshot(q)[..n - 1]);
      assert q.order[n - 1] in q.order;
      if Cancels(Snapshot(q)[n - 1], sessionId) {
        var item := q.items[q.order[n - 1]];
        assert StoredOk(q, item.id) && StoredOk(q, q.order[n - 1]);
        forall c ensures SlotStep(q, CancelItem(r0, b, item), c) {
          SlotAfterCancel(q, b, r0, ClientsOf(cancelled0), item, c);
        }
        ItemsAfterCancel(q, b, r0, ClientsOf(cancelled0), item, sessionId);
        WalkStep(q, b, sessionId, n - 1, r0, cancelled0);
      }
    } else {
      assert ClientsOf([]) == {};
      forall c ensures SlotStep(q, q, c) { assert ClientOk(q, b, c); }
    }
  }

  lemma {:induction false} KeepQueuedSubseq(q: Queue, ids: seq<Id>)
    ensures Subseq(KeepQueued(q, ids), ids)
  {
    if ids != [] {
      var front, last := ids[..|ids| - 1], ids[|ids| - 1];
      KeepQueuedSubseq(q, front);
      var kept := KeepQueued(q, front);
      if StillQueued(q, last) {
        SubseqAppend(kept, front, last);
        assert front + [last] == ids;
      } else if kept != [] {
        if kept[|kept| - 1] == last {
          SubseqDropLast(kept, front);
        }
      }
    }
  }

  lemma SweepKeeps(q: Queue, b: Bounds, clients: set<string>)
    requires MidInv(q, b, clients)
    ensures QueueInv(SweepQueues(q, clients), b)
  {
    var r := SweepQueues(q, clients);
    forall k ensures StoredOk(r, k) { assert StoredOk(q, k); }
    forall d, k ensures EntryOk(r, {}, d, k) { assert EntryOk(q, clients, d, k); }
    forall k ensures PlacedOk(r, k) {
      assert PlacedOk(q, k);
      if Live(q, k) { assert EntryOk(q, clients, q.items[k].clientId, k); }
    }
    forall d ensures ClientOk(r, b, d) {
      assert ClientOk(q, b, d);
      KeepQueuedSubseq(q, QueueOf(q, d));
      SubseqDistinct(KeepQueued(q, QueueOf(q, d)), QueueOf(q, d));
    }
  }

  lemma RememberKeeps(ts: seq<Tombstone>, b: Bounds, sessionId: Id, through: int)
    requires ValidBounds(b) && TombstonesOk(ts, b)
    ensures TombstonesOk(Remember(ts, b.maxTombstones, sessionId, through), b)
  {
    var newest := Tombstone(sessionId, Max(Floor(ts, sessionId), through));
    DropKeepsUnique(ts, sessionId, newest);
    var raised := DropTombstone(ts, sessionId) + [newest];
    if |raised| > b.maxTombstones {
      TailUnique(raised, |raised| - b.maxTombstones);
    }
  }

  lemma {:induction false} TailUnique(ts: seq<Tombstone>, n: nat)
    requires OnePerSession(ts) && n <= |ts|
    ensures OnePerSession(ts[n..])
  {
    if n > 0 {
      TailUnique(ts[1..], n - 1);
      assert ts[1..][n - 1..] == ts[n..];
    }
  }

  lemma {:induction false} DropKeepsUnique(ts: seq<Tombstone>, sessionId: Id, newest: Tombstone)
    requires OnePerSession(ts) && newest.sessionId == sessionId
    ensures OnePerSession(DropTombstone(ts, sessionId) + [newest])
  {
    var r := DropTombstone(ts, sessionId) + [newest];
    if ts != [] {
      DropKeepsUnique(ts[1..], sessionId, newest);
      if ts[0].sessionId != sessionId {
        assert r[1..] == DropTombstone(ts[1..], sessionId) + [newest];
      }
    }
  }

  lemma TombstoneKeeps(q: Queue, b: Bounds, sessionId: Id, through: int)
    requires QueueInv(q, b)
    ensures QueueInv(q.(tombstones := Remember(q.tombstones, b.maxTombstones, sessionId, through)), b)
    ensures Ordered(q)
  {
    var r := q.(tombstones := Remember(q.tombstones, b.maxTombstones, sessionId, through));
    RememberKeeps(q.tombstones, b, sessionId, through);
    forall k ensures StoredOk(r, k) { assert StoredOk(q, k); }
    forall d, k ensures EntryOk(r, {}, d, k) { assert EntryOk(q, {}, d, k); }
    forall k ensures PlacedOk(r, k) { assert PlacedOk(q, k); }
    forall d ensures ClientOk(r, b, d) { assert ClientOk(q, b, d); }
    forall id | id in q.order ensures id in q.items { assert StoredOk(q, id); }
  }

  /** What cancelling a session does to the queue. */
  ghost predicate CancelEffect(q: Queue, sessionId: Id, r: Queue, cancelled: seq<Item>) {
    && (forall id :: Live(r, id) <==> Live(q, id) && q.items[id].token.sessionId != sessionId)
    && (forall id :: Live(r, id) ==> r.items[id] == q.items[id])
    && ItemsOnlyCancelled(q, r, sessionId)
    && (forall id :: id in q.items && Cancels(q.items[id], sessionId) ==> q.items[id] in cancelled)
    && (forall i :: i in cancelled ==> i.id in q.items && i == q.items[i.id] && Cancels(i, sessionId))
    && SlotsOk(q, r)
    && (forall c {:trigger Subseq(QueueOf(r, c), QueueOf(q, c))} :: Subseq(QueueOf(r, c), QueueOf(q, c)))
  }

  lemma WalkDone(q: Queue, b: Bounds, sessionId: Id, r: Queue, cancelled: seq<Item>)
    requires QueueInv(q, b) && WalkOk(q, b, sessionId, |q.order|, r, cancelled) && SlotsOk(q, r)
             && ItemsOnlyCancelled(q, r, sessionId)
    ensures CancelEffect(q, sessionId, SweepQueues(r, ClientsOf(cancelled)), cancelled)
  {
    var s := SweepQueues(r, ClientsOf(cancelled));
    forall id | Live(r, id) ensures q.items[id].token.sessionId != sessionId {
      assert StoredOk(q, id);
      var i :| 0 <= i < |q.order| && q.order[i] == id;
    }
    forall id | Live(q, id) && q.items[id].token.sessionId == sessionId ensures q.items[id] in cancelled {
      assert !Live(r, id);
    }
    forall id | Live(q, id) && !Live(r, id) ensures q.items[id].token.sessionId == sessionId {
      assert q.items[id] in cancelled;
    }
    forall c ensures SlotStep(q, s, c) { assert SlotStep(q, r, c); }
    forall c ensures Subseq(QueueOf(s, c), QueueOf(q, c)) {
      KeepQueuedSubseq(r, QueueOf(q, c));
      SubseqRefl(QueueOf(q, c));
    }
  }

  lemma CancelWalk(q: Queue, b: Bounds, sessionId: Id)
    requires QueueInv(q, b) && Ordered(q)
    ensures var (r, cancelled) := CancelItems(q, b, sessionId, Snapshot(q));
            var s := SweepQueues(r, ClientsOf(cancelled));
            QueueInv(s, b) && CancelEffect(q, sessionId, s, cancelled) && s.tombstones == q.tombstones
  {
    assert Snapshot(q)[..|q.order|] == Snapshot(q);
    CancelItemsKeeps(q, b, sessionId, |q.order|);
    var (r, cancelled) := CancelItems(q, b, sessionId, Snapshot(q));
    SweepKeeps(r, b, ClientsOf(cancelled));
    WalkDone(q, b, sessionId, r, cancelled);
  }

  lemma EffectIgnoresTombstones(q: Queue, ts: seq<Tombstone>, sessionId: Id, r: Queue, cancelled: seq<Item>)
    requires CancelEffect(q.(tombstones := ts), sessionId, r, cancelled)
    ensures CancelEffect(q, sessionId, r, cancelled)
  {
    var q0 := q.(tombstones := ts);
    forall c ensures SlotStep(q, r, c) { assert SlotStep(q0, r, c); }
    forall c ensures Subseq(QueueOf(r, c), QueueOf(q, c)) { assert Subseq(QueueOf(r, c), QueueOf(q0, c)); }
    assert forall id :: Live(q, id) <==> Live(q0, id);
  }

  function CancelFloor(q: Queue, sessionId: Id, through: Option<int>): int
    requires Ordered(q)
  {
    if through.Some? then through.value else NewestGeneration(Snapshot(q), sessionId)
  }

  /** Cancelling a session ends exactly its live items, tells each client that was
      playing one of them to stop, and keeps the invariant. */
  lemma CancelSessionKeeps(q: Queue, b: Bounds, sessionId: Id, through: Option<int>)
    requires QueueInv(q, b)
    ensures Ordered(q)
    ensures var (r, cancelled) := CancelSession(q, b, sessionId, through);
            && QueueInv(r, b) && CancelEffect(q, sessionId, r, cancelled)
            && r.tombstones == Remember(q.tombstones, b.maxTombstones, sessionId, CancelFloor(q, sessionId, through))
  {
    TombstoneKeeps(q, b, sessionId, 0);
    var ts := Remember(q.tombstones, b.maxTombstones, sessionId, CancelFloor(q, sessionId, through));
    TombstoneKeeps(q, b, sessionId, CancelFloor(q, sessionId, through));
    var q0 := q.(tombstones := ts);
    assert Snapshot(q0) == Snapshot(q);
    CancelWalk(q0, b, sessionId);
    var (r, cancelled) := CancelSession(q, b, sessionId, through);
    assert ClientsOf(cancelled) == set i | i in cancelled :: i.clientId;
    EffectIgnoresTombstones(q, ts, sessionId, r, cancelled);
  }

  lemma {:induction false} CancelledDistinct(q: Queue, b: Bounds, sessionId: Id, n: nat)
    requires QueueInv(q, b) && n <= |q.order| && Ordered(q)
    ensures var cancelled := CancelItems(q, b, sessionId, Snapshot(q)[..n]).1;
            && (forall i :: i in cancelled ==> i.id in q.order[..n])
            && (forall i, j :: 0 <= i < j < |cancelled| ==> cancelled[i].id != cancelled[j].id)
  {
    if n > 0 {
      CancelledDistinct(q, b, sessionId, n - 1);
      assert Snapshot(q)[..n][..n - 1] == Snapshot(q)[..n - 1];
      assert StoredOk(q, q.order[n - 1]);
      assert q.order[..n] == q.order[..n - 1] + [q.order[n - 1]];
      assert q.order[n - 1] !in q.order[..n - 1];
    }
  }

  /** No item is cancelled twice by one call. */
  lemma CancelOnce(q: Queue, b: Bounds, sessionId: Id, through: Option<int>)
    requires QueueInv(q, b) && Ordered(q)
    ensures var cancelled := CancelSession(q, b, sessionId, through).1;
            forall i, j :: 0 <= i < j < |cancelled| ==> cancelled[i].id != cancelled[j].id
  {
    var ts := Remember(q.tombstones, b.maxTombstones, sessionId, CancelFloor(q, sessionId, through));
    TombstoneKeeps(q, b, sessionId, CancelFloor(q, sessionId, through));
    var q0 := q.(tombstones := ts);
    assert Snapshot(q0) == Snapshot(q);
    assert Snapshot(q)[..|q.order|] == Snapshot(q);
    CancelledDistinct(q0, b, sessionId, |q.order|);
  }
}
