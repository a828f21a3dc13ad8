/** What a poll and an acknowledgement change, and how many items are retained. */
module PlaybackEffects {
  import opened Collections
  import opened Sessions
  import opened Playback
  import opened PlaybackInvariant

  /** Nothing but the slot, queue and commands of client `c` changed. */
  ghost predicate OnlyClient(q: Queue, r: Queue, c: string) {
    && r.tombstones == q.tombstones
    && (forall id :: id in r.items ==> id in q.items && SameWork(q.items[id], r.items[id]))
    && (forall d :: d != c ==> QueueOf(r, d) == QueueOf(q, d) && CommandsOf(r, d) == CommandsOf(q, d)
                               && (d in r.active <==> d in q.active) && (d in q.active ==> r.active[d] == q.active[d]))
  }

  ghost predicate PollEffect(q: Queue, st: Store, c: string, r: Queue, out: Option<Command>) {
    && OnlyClient(q, r, c)
    && if out.None? then
         && (c in r.active <==> c in q.active) && (c in q.active ==> r.active[c] == q.active[c])
         && CommandsOf(r, c) == CommandsOf(q, c) == []
         && Subseq(QueueOf(r, c), QueueOf(q, c))
       else if out.value.kind.Play? then
         && c !in q.active && CommandsOf(r, c) == CommandsOf(q, c) == []
         && c in r.active && r.active[c] == out.value.playbackId
         && Subseq([out.value.playbackId] + QueueOf(r, c), QueueOf(q, c))
         && out.value.playbackId in q.items && out.value.token == q.items[out.value.playbackId].token
         && Accepts(st, out.value.token)
       else
         && c !in q.active && c !in r.active && CommandsOf(q, c) == [out.value] && CommandsOf(r, c) == []
         && QueueOf(r, c) == QueueOf(q, c)
  }

  /** Dropping the stale head leaves everything else as it was. */
  ghost predicate Dropped(q: Queue, mid: Queue, c: string) {
    && OnlyClient(q, mid, c)
    && mid.active == q.active && mid.commands == q.commands
    && Subseq(QueueOf(mid, c), QueueOf(q, c))
  }

  lemma DropHeadEffect(q: Queue, b: Bounds, c: string)
    requires QueueInv(q, b) && QueueOf(q, c) != [] && QueueOf(q, c)[0] in q.items
    ensures var mid := SetOver(Pop(q, c), b, q.items[q.queued[c][0]], PlaybackState.Cancelled, None);
            Dropped(q, mid, c) && mid.queued == q.queued[c := q.queued[c][1..]]
  {
    HeadIsQueued(q, b, c);
    var popped := Pop(q, c);
    forall k ensures StoredOk(popped, k) { assert StoredOk(q, k); }
    SetOverEffect(popped, b, q.items[q.queued[c][0]], PlaybackState.Cancelled, None);
    SubseqTail(q.queued[c]);
  }

  lemma PollAfterDrop(q: Queue, mid: Queue, st: Store, c: string, r: Queue, out: Option<Command>)
    requires Dropped(q, mid, c) && PollEffect(mid, st, c, r, out) && (out.Some? ==> out.value.kind.Play?)
    ensures PollEffect(q, st, c, r, out)
  {
    assert OnlyClient(q, r, c);
    var taken := if out.Some? then [out.value.playbackId] + QueueOf(r, c) else QueueOf(r, c);
    SubseqTrans(taken, QueueOf(mid, c), QueueOf(q, c));
  }

  lemma {:induction false} PlayNextEffect(q: Queue, b: Bounds, st: Store, c: string)
    requires QueueInv(q, b) && c in q.queued && c !in q.active && CommandsOf(q, c) == []
    ensures var (r, out) := PlayNext(q, b, st, c);
            PollEffect(q, st, c, r, out) && (out.Some? ==> out.value.kind.Play?)
    decreases |QueueOf(q, c)|
  {
    if QueueOf(q, c) == [] {
    } else {
      HeadIsQueued(q, b, c);
      var item := q.items[q.queued[c][0]];
      if Accepts(st, item.token) {
        SubseqRefl(q.queued[c]);
        assert [q.queued[c][0]] + q.queued[c][1..] == q.queued[c];
      } else {
        DropHeadKeeps(q, b, c);
        DropHeadEffect(q, b, c);
        var mid := SetOver(Pop(q, c), b, item, PlaybackState.Cancelled, None);
        PlayNextEffect(mid, b, st, c);
        var (r, out) := PlayNext(mid, b, st, c);
        PollAfterDrop(q, mid, st, c, r, out);
      }
    }
  }

  /** Polling changes no item but those whose token is no longer accepted, and these it
      cancels, without a code. */
  ghost predicate OnlyStaleDropped(q: Queue, st: Store, r: Queue) {
    forall id {:trigger id in r.items} :: id in r.items ==>
      id in q.items && (r.items[id] == q.items[id] || DroppedStale(st, q.items[id], r.items[id]))
  }

  ghost predicate DroppedStale(st: Store, before: Item, after: Item) {
    && !Accepts(st, before.token) && before.state == Queued
    && after == before.(state := PlaybackState.Cancelled, failure := None)
  }

  lemma {:induction false} PlayNextDrops(q: Queue, b: Bounds, st: Store, c: string)
    requires QueueInv(q, b) && c in q.queued && c !in q.active && CommandsOf(q, c) == []
    ensures OnlyStaleDropped(q, st, PlayNext(q, b, st, c).0)
    decreases |QueueOf(q, c)|
  {
    if QueueOf(q, c) != [] {
      HeadIsQueued(q, b, c);
      var item := q.items[q.queued[c][0]];
      if !Accepts(st, item.token) {
        DropHeadKeeps(q, b, c);
        DropHeadEffect(q, b, c);
        var mid := SetOver(Pop(q, c), b, item, PlaybackState.Cancelled, None);
        forall k ensures StoredOk(Pop(q, c), k) { assert StoredOk(q, k); }
        SetOverEffect(Pop(q, c), b, item, PlaybackState.Cancelled, None);
        PlayNextDrops(mid, b, st, c);
      }
    }
  }

  lemma NextCommandDrops(q: Queue, b: Bounds, st: Store, c: string)
    requires QueueInv(q, b)
    ensures OnlyStaleDropped(q, st, NextCommand(q, b, st, c).0)
  {
    if CommandsOf(q, c) == [] && c !in q.active {
      DefaultsKeep(q, b, c);
      var q0 := q.(commands := q.commands[c := CommandsOf(q, c)]);
      DefaultsKeep(q0, b, c);
      PlayNextDrops(q0.(queued := q0.queued[c := QueueOf(q, c)]), b, st, c);
    }
  }

  lemma DeliverEffect(q: Queue, b: Bounds, st: Store, c: string)
    requires QueueInv(q, b) && CommandsOf(q, c) != []
    ensures var (r, out) := NextCommand(q, b, st, c); PollEffect(q, st, c, r, out)
  {
    assert ClientOk(q, b, c);
  }

  lemma BusyEffect(q: Queue, b: Bounds, st: Store, c: string)
    requires QueueInv(q, b) && CommandsOf(q, c) == [] && c in q.active
    ensures var (r, out) := NextCommand(q, b, st, c); PollEffect(q, st, c, r, out)
  {
    SubseqRefl(QueueOf(q, c));
  }

  lemma IdleEffect(q: Queue, b: Bounds, st: Store, c: string)
    requires QueueInv(q, b) && CommandsOf(q, c) == [] && c !in q.active
    ensures var (r, out) := NextCommand(q, b, st, c); PollEffect(q, st, c, r, out)
  {
    DefaultsKeep(q, b, c);
    var q0 := q.(commands := q.commands[c := CommandsOf(q, c)]);
    DefaultsKeep(q0, b, c);
    PlayNextEffect(q0.(queued := q0.queued[c := QueueOf(q, c)]), b, st, c);
  }

  lemma NextCommandEffect(q: Queue, b: Bounds, st: Store, c: string)
    requires QueueInv(q, b)
    ensures var (r, out) := NextCommand(q, b, st, c); PollEffect(q, st, c, r, out)
  {
    if CommandsOf(q, c) != [] { DeliverEffect(q, b, st, c); }
    else if c in q.active { BusyEffect(q, b, st, c); }
    else { IdleEffect(q, b, st, c); }
  }

  lemma EnqueueEffect(q: Queue, b: Bounds, st: Store, clientId: string, token: Token, audioRef: string,
                      contentType: string, candidates: seq<Id>)
    ensures var (r, out) := Enqueue(q, b, st, clientId, token, audioRef, contentType, candidates);
            if out.Ok? && out.value.Some? then
              && Accepts(st, token) && out.value.value in candidates && out.value.value !in q.items
              && Floor(q.tombstones, token.sessionId) < token.generation
              && r == AddItem(q, Item(out.value.value, clientId, token, audioRef, contentType, Queued, None))
            else r == q || r == q.(queued := q.queued[clientId := QueueOf(q, clientId)])
  {
  }

  lemma AcknowledgeEffect(q: Queue, b: Bounds, st: Store, ack: Ack)
    requires QueueInv(q, b)
    ensures var (r, ok) := Acknowledge(q, b, st, ack);
            && OnlyClient(q, r, ack.clientId)
            && QueueOf(r, ack.clientId) == QueueOf(q, ack.clientId)
            && CommandsOf(r, ack.clientId) == CommandsOf(q, ack.clientId)
            && (ack.clientId in r.active ==>
                  ack.clientId in q.active && r.active[ack.clientId] == q.active[ack.clientId])
            && (ack.clientId in q.active && ack.clientId !in r.active ==> q.active[ack.clientId] == ack.playbackId)
  {
    var r := Acknowledge(q, b, st, ack).0;
    if r != q {
      assert StoredOk(q, ack.playbackId);
      if !ack.state.Started? {
        EndActiveKeeps(q, b, {}, q.items[ack.playbackId], ack.state, ack.failure);
      }
    }
  }

  // ------------------------------------------------------- how much is stored

  /** The total length of all client queues. */
  ghost function TotalQueued(m: map<string, seq<Id>>): nat
    decreases |m|
  {
    if m == map[] then 0
    else
      var c :| c in m;
      assert (m - {c}).Keys == m.Keys - {c};
      |m[c]| + TotalQueued(m - {c})
  }

  lemma {:induction false} TotalQueuedAny(m: map<string, seq<Id>>, c: string)
    requires c in m
    ensures (m - {c}).Keys == m.Keys - {c}
    ensures TotalQueued(m) == |m[c]| + TotalQueued(m - {c})
    decreases |m|
  {
    var d :| d in m && TotalQueued(m) == |m[d]| + TotalQueued(m - {d});
    assert (m - {d}).Keys == m.Keys - {d};
    assert (m - {c}).Keys == m.Keys - {c};
    if c != d {
      TotalQueuedAny(m - {d}, c);
      TotalQueuedAny(m - {c}, d);
      assert m - {d} - {c} == m - {c} - {d};
    }
  }

  ghost function QueuedIds(m: map<string, seq<Id>>): set<Id> {
    set c, id | c in m && id in m[c] :: id
  }

  /** An id queued for `c` is queued once, and for no other client. */
  ghost predicate QueuedApart(m: map<string, seq<Id>>, c: string) {
    c in m ==> Distinct(m[c]) && forall d :: d in m && d != c ==> multiset(m[c]) !! multiset(m[d])
  }

  lemma QueuedIdsSplit(m: map<string, seq<Id>>, c: string)
    requires c in m && QueuedApart(m, c)
    ensures var here := set id | id in m[c];
            QueuedIds(m) == here + QueuedIds(m - {c}) && here !! QueuedIds(m - {c})
  {
    var here := set id | id in m[c];
    var rest := m - {c};
    forall id | id in QueuedIds(m) ensures id in here || id in QueuedIds(rest) {
      var d :| d in m && id in m[d];
      if d != c { assert d in rest && id in rest[d]; }
    }
    forall id | id in QueuedIds(rest) ensures id in QueuedIds(m) {
      var d :| d in rest && id in rest[d];
      assert d in m && id in m[d];
    }
    assert QueuedIds(m) == here + QueuedIds(rest);
    forall id | id in QueuedIds(rest) ensures id !in here {
      var d :| d in rest && id in rest[d];
      assert id in multiset(m[d]);
    }
  }

  lemma {:induction false} QueuedIdsSize(m: map<string, seq<Id>>)
    requires forall c {:trigger QueuedApart(m, c)} :: QueuedApart(m, c)
    ensures |QueuedIds(m)| == TotalQueued(m)
    decreases |m|
  {
    if m != map[] {
      var c :| c in m;
      TotalQueuedAny(m, c);
      assert QueuedApart(m, c);
      forall d ensures QueuedApart(m - {c}, d) { assert QueuedApart(m, d); }
      QueuedIdsSize(m - {c});
      DistinctCardinality(m[c]);
      QueuedIdsSplit(m, c);
    } else {
      assert QueuedIds(m) == {};
    }
  }

  ghost function PlayingIds(m: map<string, Id>): set<Id> {
    set c | c in m :: m[c]
  }

  lemma {:induction false} PlayingIdsSize(m: map<string, Id>)
    requires forall c, d :: c in m && d in m && m[c] == m[d] ==> c == d
    ensures |PlayingIds(m)| == |m|
    decreases |m|
  {
    if m == map[] {
      assert PlayingIds(m) == {};
    } else {
      var c :| c in m;
      var rest := m - {c};
      assert rest.Keys == m.Keys - {c};
      PlayingIdsSize(rest);
      forall v | v in PlayingIds(m) ensures v in PlayingIds(rest) + {m[c]} {
        var d :| d in m && m[d] == v;
        if d != c { assert d in rest && rest[d] == v; }
      }
      assert forall d :: d in rest ==> rest[d] == m[d] && d in m;
      assert PlayingIds(m) == PlayingIds(rest) + {m[c]};
      assert m[c] !in PlayingIds(rest);
    }
  }

  lemma WaitingIds(q: Queue, b: Bounds)
    requires QueueInv(q, b)
    ensures |QueuedIds(q.queued)| == TotalQueued(q.queued)
    ensures forall id :: id in QueuedIds(q.queued) ==> Live(q, id) && !IsActive(q, q.items[id].clientId, id)
  {
    forall c ensures QueuedApart(q.queued, c) {
      assert ClientOk(q, b, c);
      forall d | c in q.queued && d in q.queued && d != c ensures multiset(q.queued[c]) !! multiset(q.queued[d]) {
        forall id | id in multiset(q.queued[c]) ensures id !in multiset(q.queued[d]) {
          assert EntryOk(q, {}, c, id) && EntryOk(q, {}, d, id);
        }
      }
    }
    QueuedIdsSize(q.queued);
    forall id | id in QueuedIds(q.queued) ensures Live(q, id) && !IsActive(q, q.items[id].clientId, id) {
      var c :| c in q.queued && id in q.queued[c];
      assert EntryOk(q, {}, c, id);
    }
  }

  lemma ActiveIds(q: Queue, b: Bounds)
    requires QueueInv(q, b)
    ensures |PlayingIds(q.active)| == |q.active|
    ensures forall id :: id in PlayingIds(q.active) ==> Live(q, id) && IsActive(q, q.items[id].clientId, id)
  {
    forall c | c in q.active ensures Live(q, q.active[c]) && q.items[q.active[c]].clientId == c {
      assert ClientOk(q, b, c);
    }
    PlayingIdsSize(q.active);
  }

  lemma Placed(q: Queue, b: Bounds, id: Id)
    requires QueueInv(q, b) && id in q.items && id !in q.terminal
    ensures id in QueuedIds(q.queued) || id in PlayingIds(q.active)
  {
    assert StoredOk(q, id) && PlacedOk(q, id);
    var c := q.items[id].clientId;
    if id in QueueOf(q, c) {
      assert c in q.queued && id in q.queued[c];
    } else {
      assert c in q.active && q.active[c] == id;
    }
  }

  lemma OverIds(q: Queue, b: Bounds)
    requires QueueInv(q, b)
    ensures |(set id | id in q.terminal)| == |q.terminal|
    ensures forall id :: id in q.terminal ==> id in q.items && !Live(q, id)
  {
    DistinctCardinality(q.terminal);
    forall id | id in q.terminal ensures id in q.items && !Live(q, id) { assert StoredOk(q, id); }
  }

  lemma PartitionSize<T>(whole: set<T>, a: set<T>, b: set<T>, c: set<T>)
    requires a <= whole && b <= whole && c <= whole && forall x :: x in whole ==> x in a || x in b || x in c
    requires a !! b && a !! c && b !! c
    ensures |whole| == |a| + |b| + |c|
  {
    assert whole == a + (b + c);
  }

  /** The retained items are exactly the recorded ends, the queue entries and the
      active slots, each counted once. */
  lemma ItemCount(q: Queue, b: Bounds)
    requires QueueInv(q, b)
    ensures |q.items| == |q.terminal| + TotalQueued(q.queued) + |q.active|
    ensures |q.items| <= b.maxTerminal + TotalQueued(q.queued) + |q.queued|
  {
    OverIds(q, b);
    WaitingIds(q, b);
    ActiveIds(q, b);
    forall id | id in q.items && id !in q.terminal ensures id in QueuedIds(q.queued) || id in PlayingIds(q.active) {
      Placed(q, b, id);
    }
    PartitionSize(q.items.Keys, (set id | id in q.terminal), QueuedIds(q.queued), PlayingIds(q.active));
    ActiveHaveQueues(q, b);
  }

  lemma ActiveHaveQueues(q: Queue, b: Bounds)
    requires QueueInv(q, b)
    ensures |q.active| <= |q.queued|
  {
    forall c | c in q.active ensures c in q.queued { assert ClientOk(q, b, c); }
    SubsetSize(q.active.Keys, q.queued.Keys);
  }

  lemma {:induction false} SubsetSize<T>(a: set<T>, b: set<T>)
    requires a <= b
    ensures |a| <= |b|
  {
    if a != {} {
      var x :| x in a;
      SubsetSize(a - {x}, b - {x});
    }
  }
}
