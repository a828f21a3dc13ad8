/** The playback queue as the program runs it: dictionaries and deques updated in
    place, with loops that pop them.  Every method is proved to compute what the
    function of the same name in `Playback` says. */
module PlaybackQueues {
  import opened Collections
  import opened Sessions
  import opened SessionStores
  import opened Playback
  import opened PlaybackInvariant

  class PlaybackQueue {
    const b: Bounds
    const authority: SessionStore
    var items: map<Id, Item>
    var order: seq<Id>
    var queued: map<string, seq<Id>>
    var active: map<string, Id>
    var commands: map<string, seq<Command>>
    var tombstones: seq<Tombstone>
    var terminal: seq<Id>

    ghost function State(): Queue
      reads this
    {
      Queue(items, order, queued, active, commands, tombstones, terminal)
    }

    constructor (b: Bounds, authority: SessionStore)
      requires ValidBounds(b)
      ensures State() == EMPTY_QUEUE && this.b == b && this.authority == authority
    {
      this.b, this.authority := b, authority;
      items, order, queued, active := map[], [], map[], map[];
      commands, tombstones, terminal := map[], [], [];
    }

    // ------------------------------------------------------------ helpers

    method RemoveItem(id: Id)
      modifies this`items, this`order
      ensures State() == Playback.RemoveItem(old(State()), id)
    {
      items := map k | k in items && k != id :: items[k];
      order := Without(order, id);
    }

    /** Record the end of an item, then forget the oldest ends beyond the bound. */
    method SetTerminal(item: Item, state: PlaybackState, code: Option<string>)
      modifies this`items, this`order, this`terminal
      ensures State() == SetOver(old(State()), b, item, state, code)
    {
      items := items[item.id := item.(state := state, failure := BoundedCode(code))];
      terminal := terminal + [item.id];
      while |terminal| > b.maxTerminal && terminal != []
        invariant Expire(State(), b) == SetOver(old(State()), b, item, state, code)
        invariant queued == old(queued) && active == old(active) && commands == old(commands)
                  && tombstones == old(tombstones)
        decreases |terminal|
      {
        var expired := terminal[0];
        terminal := terminal[1..];
        if expired in items && Over(items[expired].state) { RemoveItem(expired); }
      }
    }

    method AppendCommand(c: string, command: Command)
      modifies this`commands
      ensures State() == Playback.AppendCommand(old(State()), b, c, command)
    {
      var pending := if c in commands then commands[c] else [];
      var found := false;
      for i := 0 to |pending|
        invariant found == exists k :: k in pending[..i] && k.kind == command.kind && k.playbackId == command.playbackId
      {
        assert pending[..i + 1] == pending[..i] + [pending[i]];
        found := found || (pending[i].kind == command.kind && pending[i].playbackId == command.playbackId);
      }
      assert pending[..|pending|] == pending;
      if found {
        commands := commands[c := pending];
      } else {
        var grown := pending + [command];
        commands := commands[c := if |grown| > b.maxCommands then grown[|grown| - b.maxCommands..] else grown];
      }
    }

    // ---------------------------------------------------------- operations

    method Enqueue(clientId: string, token: Token, audioRef: string, contentType: string, candidates: seq<Id>)
      returns (out: Outcome<Option<Id>, Fault>)
      requires authority.Valid()
      modifies this`items, this`order, this`queued
      ensures (State(), out)
              == Playback.Enqueue(old(State()), b, authority.Value(), clientId, token, audioRef, contentType,
                                  candidates)
    {
      var current := authority.Accepts(token);
      if !current { return Ok(None); }
      if !AudioOk(clientId, audioRef, contentType) { return Raised(InvalidAudio); }
      if token.generation <= Floor(tombstones, token.sessionId) { return Ok(None); }
      var queue := if clientId in queued then queued[clientId] else [];
      queued := queued[clientId := queue];
      if |queue| >= b.maxQueued { return Raised(QueueFull); }
      var id := authority.NewUniqueId(candidates, items.Keys);
      if id.None? { return Raised(Fault.IdsExhausted); }
      Admit(Item(id.value, clientId, token, audioRef, contentType, Queued, None));
      return Ok(id);
    }

    method Admit(item: Item)
      requires item.clientId in queued
      modifies this`items, this`order, this`queued
      ensures forall q: Queue ::
                old(State()) == q.(queued := q.queued[item.clientId := QueueOf(q, item.clientId)]) ==>
                    State() == AddItem(q, item)
    {
      items := items[item.id := item];
      order := order + [item.id];
      queued := queued[item.clientId := queued[item.clientId] + [item.id]];
    }

    method NextCommand(c: string) returns (out: Option<Command>)
      requires QueueInv(State(), b) && authority.Valid()
      modifies this
      ensures (State(), out) == Playback.NextCommand(old(State()), b, authority.Value(), c)
    {
      ghost var was := State();
      DefaultsKeep(was, b, c);
      commands := commands[c := if c in commands then commands[c] else []];
      if commands[c] != [] {
        out := Some(commands[c][0]);
        commands := commands[c := commands[c][1..]];
        return;
      }
      if c in active { return None; }
      DefaultsKeep(State(), b, c);
      queued := queued[c := if c in queued then queued[c] else []];
      out := PlayNext(c);
    }

    method PlayNext(c: string) returns (out: Option<Command>)
      requires QueueInv(State(), b) && authority.Valid()
      requires c in queued && c !in active && CommandsOf(State(), c) == []
      modifies this
      ensures (State(), out) == Playback.PlayNext(old(State()), b, authority.Value(), c)
    {
      ghost var st := authority.Value();
      while queued[c] != []
        invariant authority.Valid() && authority.Value() == st
        invariant QueueInv(State(), b) && c in queued && c !in active && CommandsOf(State(), c) == []
        invariant Playback.PlayNext(State(), b, st, c) == Playback.PlayNext(old(State()), b, st, c)
        decreases |queued[c]|
      {
        var dropped;
        dropped, out := TakeHead(c);
        if !dropped { return; }
      }
      assert QueueOf(State(), c) == [];
      assert Playback.PlayNext(State(), b, st, c) == (State(), None);
      return None;
    }

    /** One round: take the head of the queue; play it, or record it as cancelled. */
    method TakeHead(c: string) returns (dropped: bool, out: Option<Command>)
      requires QueueInv(State(), b) && authority.Valid()
      requires c in queued && queued[c] != [] && c !in active && CommandsOf(State(), c) == []
      modifies this
      ensures authority.Value() == old(authority.Value())
      ensures var st := old(authority.Value());
              if dropped then
                && Playback.PlayNext(State(), b, st, c) == Playback.PlayNext(old(State()), b, st, c)
                && QueueInv(State(), b) && queued == old(queued)[c := old(queued)[c][1..]]
                && active == old(active) && CommandsOf(State(), c) == []
              else (State(), out) == Playback.PlayNext(old(State()), b, st, c)
    {
      HeadIsQueued(State(), b, c);
      var id := queued[c][0];
      var item := items[id];   // never a missing key
      var current := authority.Accepts(item.token);
      if current {
        out := PlayHead(c, item);
        return false, out;
      }
      DropHead(c, item);
      return true, None;
    }

    /** The head of the queue may be played: pop it and make it the client's active item. */
    method PlayHead(c: string, item: Item) returns (out: Option<Command>)
      requires QueueInv(State(), b) && c in queued && queued[c] != []
      requires queued[c][0] in items && items[queued[c][0]] == item && Accepts(authority.Value(), item.token)
      modifies this
      ensures authority.Value() == old(authority.Value())
      ensures (State(), out) == Playback.PlayNext(old(State()), b, old(authority.Value()), c)
    {
      PlayNextAccepts(State(), b, authority.Value(), c);
      var id := queued[c][0];
      queued := queued[c := queued[c][1..]];
      active := active[c := id];
      return Some(PlayCommand(item));
    }

    /** The head of the queue is stale: pop it and record it as cancelled. */
    method DropHead(c: string, item: Item)
      requires QueueInv(State(), b) && c in queued && queued[c] != [] && c !in active && CommandsOf(State(), c) == []
      requires queued[c][0] in items && items[queued[c][0]] == item && !Accepts(authority.Value(), item.token)
      modifies this
      ensures authority.Value() == old(authority.Value())
      ensures var st := old(authority.Value());
              Playback.PlayNext(State(), b, st, c) == Playback.PlayNext(old(State()), b, st, c)
      ensures QueueInv(State(), b) && queued == old(queued)[c := old(queued)[c][1..]]
      ensures active == old(active) && CommandsOf(State(), c) == []
    {
      PlayNextDrops(State(), b, authority.Value(), c);
      queued := queued[c := queued[c][1..]];
      SetTerminal(item, PlaybackState.Cancelled, None);
    }

    method Acknowledge(ack: Ack) returns (ok: bool)
      requires authority.Valid()
      modifies this
      ensures (State(), ok) == Playback.Acknowledge(old(State()), b, authority.Value(), ack)
    {
      if ack.playbackId !in items || items[ack.playbackId].clientId != ack.clientId { return false; }
      var item := items[ack.playbackId];
      var owns := ack.clientId in active && active[ack.clientId] == ack.playbackId;
      if Over(item.state) { return ack.state == item.state; }
      match ack.state {
        case Queued => return false;
        case Started =>
          if item.state.Started? && owns { return true; }
          var current := authority.Accepts(item.token);
          if !owns || !item.state.Queued? || !current { return false; }
          items := items[item.id := item.(state := Started)];
          return true;
        case _ =>
          if !owns || (ack.state.Completed? && !item.state.Started?) { return false; }
          SetTerminal(item, ack.state, ack.failure);
          active := active - {ack.clientId};
          return true;
      }
    }

    method CancelItem(item: Item)
      modifies this
      ensures State() == Playback.CancelItem(old(State()), b, item)
    {
      SetTerminal(item, PlaybackState.Cancelled, None);
      ExpireKeepsQueues(old(State()), b, item, PlaybackState.Cancelled, None);
      if item.clientId in active && active[item.clientId] == item.id {
        active := active - {item.clientId};
        AppendCommand(item.clientId, Command(Stop, item.id, item.token, None));
      }
    }

    /** The generation an unscoped cancellation covers: the newest among all items kept. */
    method SessionFloor(sessionId: Id, through: Option<int>) returns (floor: int)
      requires Ordered(State())
      ensures floor == if through.Some? then through.value else NewestGeneration(Snapshot(State()), sessionId)
    {
      if through.Some? { return through.value; }
      floor := -1;
      for i := 0 to |order|
        invariant floor == NewestGeneration(Snapshot(State())[..i], sessionId)
      {
        assert Snapshot(State())[..i + 1][..i] == Snapshot(State())[..i];
        var token := items[order[i]].token;
        if token.sessionId == sessionId && floor < token.generation { floor := token.generation; }
      }
      assert Snapshot(State())[..|order|] == Snapshot(State());
    }

    method RememberTombstone(sessionId: Id, through: int)
      requires ValidBounds(b)
      modifies this`tombstones
      ensures State() == old(State()).(tombstones := Remember(old(tombstones), b.maxTombstones, sessionId, through))
    {
      var raised := Tombstone(sessionId, Max(Floor(tombstones, sessionId), through));
      tombstones := DropTombstone(tombstones, sessionId) + [raised];
      if |tombstones| > b.maxTombstones { tombstones := tombstones[|tombstones| - b.maxTombstones..]; }
    }

    /** Cancel every live item of the session, in the order the items were stored. */
    method CancelItems(sessionId: Id, snapshot: seq<Item>) returns (cancelled: seq<Item>)
      modifies this
      ensures (State(), cancelled) == Playback.CancelItems(old(State()), b, sessionId, snapshot)
    {
      cancelled := [];
      for i := 0 to |snapshot|
        invariant (State(), cancelled) == Playback.CancelItems(old(State()), b, sessionId, snapshot[..i])
      {
        assert snapshot[..i + 1][..i] == snapshot[..i];
        if Cancels(snapshot[i], sessionId) {
          CancelItem(snapshot[i]);
          cancelled := cancelled + [snapshot[i]];
        }
      }
      assert snapshot[..|snapshot|] == snapshot;
    }

    method SweepQueue(c: string)
      requires c in queued
      modifies this`queued
      ensures queued == old(queued)[c := KeepQueued(old(State()), old(queued)[c])]
    {
      var ids := queued[c];
      var kept: seq<Id> := [];
      for i := 0 to |ids|
        invariant kept == KeepQueued(State(), ids[..i]) && queued == old(queued)
      {
        assert ids[..i + 1][..i] == ids[..i];
        if ids[i] in items && items[ids[i]].state == Queued { kept := kept + [ids[i]]; }
      }
      assert ids[..|ids|] == ids;
      queued := queued[c := kept];
    }

    method SweepQueues(clients: set<string>)
      modifies this`queued
      ensures State() == Playback.SweepQueues(old(State()), clients)
    {
      ghost var was := State();
      var left := clients;
      while left != {}
        invariant left <= clients
        invariant queued.Keys == was.queued.Keys
        invariant forall c :: c in queued ==>
                    queued[c] == if c in clients - left then KeepQueued(was, was.queued[c]) else was.queued[c]
        decreases left
      {
        var c :| c in left;
        left := left - {c};
        if c in queued {
          SweepSame(State(), was, queued[c]);
          ghost var before := queued[c];
          SweepQueue(c);
          assert before == was.queued[c] && queued[c] == KeepQueued(was, before);
        }
      }
      assert queued == Playback.SweepQueues(was, clients).queued;
    }

    method CancelSession(sessionId: Id, through: Option<int>) returns (cancelled: seq<Item>)
      requires ValidBounds(b) && Ordered(State())
      modifies this
      ensures (State(), cancelled) == Playback.CancelSession(old(State()), b, sessionId, through)
    {
      var floor := SessionFloor(sessionId, through);
      var all, ids := items, order;
      var snapshot := seq(|ids|, i requires 0 <= i < |ids| && ids[i] in all => all[ids[i]]);
      assert snapshot == Snapshot(State());
      RememberTombstone(sessionId, floor);
      cancelled := CancelItems(sessionId, snapshot);
      SweepQueues(set i | i in cancelled :: i.clientId);
    }
  }

  /** The head of the queue is accepted: it is played. */
  lemma PlayNextAccepts(q: Queue, b: Bounds, st: Store, c: string)
    requires QueueInv(q, b) && c in q.queued && q.queued[c] != []
    requires q.queued[c][0] in q.items && Accepts(st, q.items[q.queued[c][0]].token)
    ensures var id := q.queued[c][0];
            PlayNext(q, b, st, c) == (Pop(q, c).(active := q.active[c := id]), Some(PlayCommand(q.items[id])))
  {
    HeadIsQueued(q, b, c);
  }

  /** The head of the queue is stale: it is recorded as cancelled and the search goes on. */
  lemma PlayNextDrops(q: Queue, b: Bounds, st: Store, c: string)
    requires QueueInv(q, b) && c in q.queued && q.queued[c] != [] && c !in q.active && CommandsOf(q, c) == []
    requires q.queued[c][0] in q.items && !Accepts(st, q.items[q.queued[c][0]].token)
    ensures var dropped := SetOver(Pop(q, c), b, q.items[q.queued[c][0]], PlaybackState.Cancelled, None);
            && PlayNext(q, b, st, c) == PlayNext(dropped, b, st, c) && QueueInv(dropped, b)
            && dropped.queued == q.queued[c := q.queued[c][1..]] && dropped.active == q.active
            && CommandsOf(dropped, c) == []
  {
    HeadIsQueued(q, b, c);
    DropHeadKeeps(q, b, c);
    ExpireKeepsQueues(Pop(q, c), b, q.items[q.queued[c][0]], PlaybackState.Cancelled, None);
  }

  /** Sweeping looks only at the items, not at the other queues. */
  lemma {:induction false} SweepSame(q: Queue, r: Queue, ids: seq<Id>)
    requires q.items == r.items
    ensures KeepQueued(q, ids) == KeepQueued(r, ids)
    decreases |ids|
  {
    if ids != [] { SweepSame(q, r, ids[..|ids| - 1]); }
  }
}
