/** The playback queue as a value: what each lock-protected operation computes,
    and the representation invariant of its seven collections. */
module Playback {
  import opened Collections
  import opened Sessions

  datatype PlaybackState = Queued | Started | Completed | Failed | Cancelled

  predicate Over(s: PlaybackState) {
    s.Completed? || s.Failed? || s.Cancelled?
  }

  datatype Item = Item(
    id: Id,
    clientId: string,
    token: Token,
    audioRef: string,
    contentType: string,
    state: PlaybackState,
    failure: Option<string>)

  /** The same work of the same client's turn, whatever has become of it. */
  predicate SameWork(a: Item, b: Item) {
    b.token == a.token && b.audioRef == a.audioRef
  }

  datatype CommandKind = Play | Stop

  datatype Command = Command(kind: CommandKind, playbackId: Id, token: Token, audio: Option<(string, string)>)

  datatype Ack = Ack(playbackId: Id, clientId: string, state: PlaybackState, failure: Option<string>)

  datatype Tombstone = Tombstone(sessionId: Id, through: int)

  datatype Bounds = Bounds(maxQueued: nat, maxTerminal: nat, maxCommands: nat, maxTombstones: nat)

  predicate ValidBounds(b: Bounds) {
    b.maxQueued >= 1 && b.maxTerminal >= 1 && b.maxCommands >= 1 && b.maxTombstones >= 1
  }

  datatype Queue = Queue(
    items: map<Id, Item>,
    order: seq<Id>,
    queued: map<string, seq<Id>>,
    active: map<string, Id>,
    commands: map<string, seq<Command>>,
    tombstones: seq<Tombstone>,
    terminal: seq<Id>)

  datatype Fault = InvalidAudio | QueueFull | IdsExhausted | UnknownPlayback

  const EMPTY_QUEUE := Queue(map[], [], map[], map[], map[], [], [])

  // ----------------------------------------------------------------- helpers

  function QueueOf(q: Queue, c: string): seq<Id> {
    if c in q.queued then q.queued[c] else []
  }

  function CommandsOf(q: Queue, c: string): seq<Command> {
    if c in q.commands then q.commands[c] else []
  }

  predicate IsActive(q: Queue, c: string, id: Id) {
    c in q.active && q.active[c] == id
  }

  /** The generation through which a session is tombstoned; -1 when it is not. */
  function Floor(ts: seq<Tombstone>, sessionId: Id): (r: int)
    ensures r == -1 || exists t :: t in ts && t.sessionId == sessionId && t.through == r
  {
    if ts == [] then -1
    else if ts[0].sessionId == sessionId then ts[0].through
    else Floor(ts[1..], sessionId)
  }

  function DropTombstone(ts: seq<Tombstone>, sessionId: Id): (r: seq<Tombstone>)
    ensures |r| <= |ts|
    ensures forall t :: t in r <==> t in ts && t.sessionId != sessionId
  {
    if ts == [] then []
    else if ts[0].sessionId == sessionId then DropTombstone(ts[1..], sessionId)
    else [ts[0]] + DropTombstone(ts[1..], sessionId)
  }

  /** Raise the session's tombstone, make it the newest, drop the oldest beyond the bound. */
  function Remember(ts: seq<Tombstone>, bound: nat, sessionId: Id, through: int): (r: seq<Tombstone>)
    requires bound >= 1
    ensures |r| <= bound
    ensures Tombstone(sessionId, Max(Floor(ts, sessionId), through)) in r
    ensures forall t :: t in r ==> t == Tombstone(sessionId, Max(Floor(ts, sessionId), through)) || t in ts
  {
    var newest := Tombstone(sessionId, Max(Floor(ts, sessionId), through));
    var raised := DropTombstone(ts, sessionId) + [newest];
    var kept := if |raised| > bound then raised[|raised| - bound..] else raised;
    assert kept[|kept| - 1] == newest;
    kept
  }

  function BoundedCode(code: Option<string>): Option<string> {
    if code.None? || code.value == "" then None
    else if |code.value| > 256 then Some(code.value[..256])
    else code
  }

  function RemoveItem(q: Queue, id: Id): Queue {
    q.(items := map k | k in q.items && k != id :: q.items[k], order := Without(q.order, id))
  }

  /** Forget the oldest terminal items while there are more than the bound. */
  function Expire(q: Queue, b: Bounds): Queue
    decreases |q.terminal|
  {
    if |q.terminal| <= b.maxTerminal || q.terminal == [] then q
    else
      var id := q.terminal[0];
      var popped := q.(terminal := q.terminal[1..]);
      Expire(if id in q.items && Over(q.items[id].state) then RemoveItem(popped, id) else popped, b)
  }

  function SetOver(q: Queue, b: Bounds, item: Item, state: PlaybackState, code: Option<string>): Queue {
    Expire(q.(items := q.items[item.id := item.(state := state, failure := BoundedCode(code))],
              terminal := q.terminal + [item.id]), b)
  }

  predicate AudioOk(clientId: string, audioRef: string, contentType: string) {
    Strip(clientId) != "" && Strip(audioRef) != "" && "audio/" <= contentType
  }

  // -------------------------------------------------------------- operations

  function Enqueue(q: Queue, b: Bounds, st: Store, clientId: string, token: Token, audioRef: string,
                   contentType: string, candidates: seq<Id>): (Queue, Outcome<Option<Id>, Fault>)
  {
    if !Accepts(st, token) then (q, Ok(None))
    else if !AudioOk(clientId, audioRef, contentType) then (q, Raised(InvalidAudio))
    else if token.generation <= Floor(q.tombstones, token.sessionId) then (q, Ok(None))
    else
      var open := q.(queued := q.queued[clientId := QueueOf(q, clientId)]);
      if |QueueOf(q, clientId)| >= b.maxQueued then (open, Raised(QueueFull))
      else
        var id := UniqueId(candidates, q.items.Keys);
        if id.None? then (open, Raised(Fault.IdsExhausted))
        else (AddItem(q, Item(id.value, clientId, token, audioRef, contentType, Queued, None)), Ok(Some(id.value)))
  }

  function AddItem(q: Queue, item: Item): Queue {
    q.(items := q.items[item.id := item],
       order := q.order + [item.id],
       queued := q.queued[item.clientId := QueueOf(q, item.clientId) + [item.id]])
  }

  function PlayCommand(item: Item): Command {
    Command(Play, item.id, item.token, Some((item.audioRef, item.contentType)))
  }

  function NextCommand(q: Queue, b: Bounds, st: Store, c: string): (Queue, Option<Command>) {
    var q0 := q.(commands := q.commands[c := CommandsOf(q, c)]);
    if CommandsOf(q, c) != [] then
      (q0.(commands := q0.commands[c := CommandsOf(q, c)[1..]]), Some(CommandsOf(q, c)[0]))
    else if c in q.active then (q0, None)
    else PlayNext(q0.(queued := q0.queued[c := QueueOf(q, c)]), b, st, c)
  }

  /** Take entries off the client's queue until one may be played. */
  function PlayNext(q: Queue, b: Bounds, st: Store, c: string): (Queue, Option<Command>)
    decreases |QueueOf(q, c)|
  {
    if QueueOf(q, c) == [] then (q, None)
    else
      var id := q.queued[c][0];
      var popped := q.(queued := q.queued[c := q.queued[c][1..]]);
      // A missing dictionary entry would raise here; QueueInv shows there is none.
      if id !in q.items || q.items[id].state != Queued then PlayNext(popped, b, st, c)
      else if !Accepts(st, q.items[id].token) then
        ExpireKeepsQueues(popped, b, q.items[id], PlaybackState.Cancelled, None);
        PlayNext(SetOver(popped, b, q.items[id], PlaybackState.Cancelled, None), b, st, c)
      else (popped.(active := q.active[c := id]), Some(PlayCommand(q.items[id])))
  }

  lemma {:induction false} ExpireKeepsRest(q: Queue, b: Bounds)
    ensures var r := Expire(q, b);
            r.queued == q.queued && r.active == q.active && r.commands == q.commands && r.tombstones == q.tombstones
    decreases |q.terminal|
  {
    if |q.terminal| > b.maxTerminal && q.terminal != [] {
      var id := q.terminal[0];
      var popped := q.(terminal := q.terminal[1..]);
      ExpireKeepsRest(if id in q.items && Over(q.items[id].state) then RemoveItem(popped, id) else popped, b);
    }
  }

  lemma ExpireKeepsQueues(q: Queue, b: Bounds, item: Item, state: PlaybackState, code: Option<string>)
    ensures var r := SetOver(q, b, item, state, code);
            r.queued == q.queued && r.active == q.active && r.commands == q.commands && r.tombstones == q.tombstones
  {
    ExpireKeepsRest(q.(items := q.items[item.id := item.(state := state, failure := BoundedCode(code))],
                       terminal := q.terminal + [item.id]), b);
  }

  function Acknowledge(q: Queue, b: Bounds, st: Store, ack: Ack): (Queue, bool) {
    if ack.playbackId !in q.items || q.items[ack.playbackId].clientId != ack.clientId then (q, false)
    else
      var item := q.items[ack.playbackId];
      var owns := IsActive(q, ack.clientId, ack.playbackId);
      if Over(item.state) then (q, ack.state == item.state)
      else
        match ack.state
        case Queued => (q, false)
        case Started =>
          if item.state.Started? && owns then (q, true)
          else if !owns || !item.state.Queued? || !Accepts(st, item.token) then (q, false)
          else (q.(items := q.items[item.id := item.(state := Started)]), true)
        case _ =>
          if !owns || (ack.state.Completed? && !item.state.Started?) then (q, false)
          else (EndActive(q, b, item, ack.state, ack.failure), true)
  }

  /** The active item of a client ends: record it and free the client's slot. */
  function EndActive(q: Queue, b: Bounds, item: Item, state: PlaybackState, code: Option<string>): Queue {
    var q' := SetOver(q, b, item, state, code);
    q'.(active := q'.active - {item.clientId})
  }

  function AppendCommand(q: Queue, b: Bounds, c: string, command: Command): Queue {
    var pending := CommandsOf(q, c);
    if exists k :: k in pending && k.kind == command.kind && k.playbackId == command.playbackId
    then q.(commands := q.commands[c := pending])
    else
      var grown := pending + [command];
      q.(commands := q.commands[c := if |grown| > b.maxCommands then grown[|grown| - b.maxCommands..] else grown])
  }

  function CancelItem(q: Queue, b: Bounds, item: Item): Queue {
    if IsActive(q, item.clientId, item.id) then
      AppendCommand(EndActive(q, b, item, PlaybackState.Cancelled, None), b, item.clientId,
                    Command(Stop, item.id, item.token, None))
    else SetOver(q, b, item, PlaybackState.Cancelled, None)
  }

  predicate Cancels(item: Item, sessionId: Id) {
    item.token.sessionId == sessionId && !Over(item.state)
  }

  /** Walk a snapshot of the items in insertion order, cancelling the session's live ones. */
  function CancelItems(q: Queue, b: Bounds, sessionId: Id, snapshot: seq<Item>): (Queue, seq<Item>)
  {
    if snapshot == [] then (q, [])
    else
      var (q1, cancelled) := CancelItems(q, b, sessionId, snapshot[..|snapshot| - 1]);
      var item := snapshot[|snapshot| - 1];
      if Cancels(item, sessionId) then (CancelItem(q1, b, item), cancelled + [item]) else (q1, cancelled)
  }

  predicate StillQueued(q: Queue, id: Id) {
    id in q.items && q.items[id].state == Queued
  }

  function KeepQueued(q: Queue, ids: seq<Id>): (r: seq<Id>)
    ensures forall id :: id in r <==> id in ids && StillQueued(q, id)
    ensures |r| <= |ids|
  {
    if ids == [] then []
    else if StillQueued(q, ids[|ids| - 1]) then KeepQueued(q, ids[..|ids| - 1]) + [ids[|ids| - 1]]
    else KeepQueued(q, ids[..|ids| - 1])
  }

  function SweepQueues(q: Queue, clients: set<string>): Queue {
    q.(queued := map c | c in q.queued :: if c in clients then KeepQueued(q, q.queued[c]) else q.queued[c])
  }

  /** The highest generation among all retained items of the session, -1 when there is none. */
  function NewestGeneration(items: seq<Item>, sessionId: Id): (r: int)
    ensures r >= -1
    ensures r == -1 || exists i :: i in items && i.token.sessionId == sessionId && i.token.generation == r
    ensures forall i :: i in items && i.token.sessionId == sessionId ==> i.token.generation <= r
  {
    if items == [] then -1
    else
      var last := items[|items| - 1];
      var rest := NewestGeneration(items[..|items| - 1], sessionId);
      assert forall i :: i in items ==> i == last || i in items[..|items| - 1];
      if last.token.sessionId == sessionId then Max(rest, last.token.generation) else rest
  }

  predicate Ordered(q: Queue) {
    forall id :: id in q.order ==> id in q.items
  }

  function Snapshot(q: Queue): (r: seq<Item>)
    requires Ordered(q)
    ensures |r| == |q.order| && forall i :: 0 <= i < |r| ==> r[i] == q.items[q.order[i]]
  {
    seq(|q.order|, i requires 0 <= i < |q.order| => q.items[q.order[i]])
  }

  function CancelSession(q: Queue, b: Bounds, sessionId: Id, through: Option<int>): (Queue, seq<Item>)
    requires ValidBounds(b)
    requires Ordered(q)
  {
    var floor := if through.Some? then through.value else NewestGeneration(Snapshot(q), sessionId);
    var q0 := q.(tombstones := Remember(q.tombstones, b.maxTombstones, sessionId, floor));
    var (q1, cancelled) := CancelItems(q0, b, sessionId, Snapshot(q));
    (SweepQueues(q1, set i | i in cancelled :: i.clientId), cancelled)
  }

  // --------------------------------------------------------------- invariant

  predicate Live(q: Queue, id: Id) {
    id in q.items && !Over(q.items[id].state)
  }

  /** An entry of the queue of `c` is a live, queued item of `c` that is not
      playing.  While a cancellation is under way the queues of the `dirty`
      clients may also hold entries that are already over. */
  ghost predicate EntryOk(q: Queue, dirty: set<string>, c: string, id: Id) {
    id in QueueOf(q, c) ==>
      if Live(q, id)
      then q.items[id].clientId == c && q.items[id].state == Queued && !IsActive(q, c, id)
      else c in dirty
  }

  /** A live item waits in its client's queue or is its client's active item. */
  ghost predicate PlacedOk(q: Queue, id: Id) {
    Live(q, id) ==> id in QueueOf(q, q.items[id].clientId) || IsActive(q, q.items[id].clientId, id)
  }

  /** Items are stored under their own id and listed once in insertion order;
      the terminal record lists exactly the items that are over. */
  ghost predicate StoredOk(q: Queue, id: Id) {
    && (id in q.order <==> id in q.items)
    && (id in q.items ==> q.items[id].id == id)
    && (id in q.terminal <==> id in q.items && Over(q.items[id].state))
  }

  ghost predicate StorageOk(q: Queue, b: Bounds) {
    && ValidBounds(b)
    && (forall id {:trigger StoredOk(q, id)} :: StoredOk(q, id))
    && Distinct(q.order)
    && Distinct(q.terminal) && |q.terminal| <= b.maxTerminal
  }

  /** At most one command waits per client, it is a STOP, and none waits while
      the client has an active item. */
  ghost predicate ClientOk(q: Queue, b: Bounds, c: string) {
    && Distinct(QueueOf(q, c))
    && |QueueOf(q, c)| <= b.maxQueued
    && |CommandsOf(q, c)| <= 1
    && (CommandsOf(q, c) != [] ==> CommandsOf(q, c)[0].kind == Stop)
    && (c in q.active ==>
          && c in q.queued
          && Live(q, q.active[c])
          && q.items[q.active[c]].clientId == c
          && CommandsOf(q, c) == [])
  }

  /** An ordered dictionary: one tombstone per session. */
  ghost predicate OnePerSession(ts: seq<Tombstone>) {
    ts == [] || ((forall t :: t in ts[1..] ==> t.sessionId != ts[0].sessionId) && OnePerSession(ts[1..]))
  }

  ghost predicate TombstonesOk(ts: seq<Tombstone>, b: Bounds) {
    |ts| <= b.maxTombstones && OnePerSession(ts)
  }

  ghost predicate MidInv(q: Queue, b: Bounds, dirty: set<string>) {
    && StorageOk(q, b)
    && (forall c, id {:trigger EntryOk(q, dirty, c, id)} :: EntryOk(q, dirty, c, id))
    && (forall id {:trigger PlacedOk(q, id)} :: PlacedOk(q, id))
    && (forall c {:trigger ClientOk(q, b, c)} :: ClientOk(q, b, c))
    && TombstonesOk(q.tombstones, b)
  }

  ghost predicate QueueInv(q: Queue, b: Bounds) {
    MidInv(q, b, {})
  }
}
