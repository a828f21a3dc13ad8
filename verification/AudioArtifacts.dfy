/** The short-lived store of synthesized audio: bounded in count and bytes, emptied
    by age, and read at most once.  An `OrderedDict` is a sequence of entries with
    distinct ids. */
module Artifacts {
  import opened Collections

  type Id = string
  type Bytes = seq<bv8>

  datatype Owner = Owner(sessionId: Id, turnId: Id, generation: nat)

  datatype Artifact = Artifact(id: Id, contentType: string, data: Bytes, createdAt: int, owner: Option<Owner>)

  datatype Caps = Caps(maxItems: nat, maxBytes: nat, ttl: int)

  function TotalBytes(items: seq<Artifact>): nat {
    if items == [] then 0 else |items[0].data| + TotalBytes(items[1..])
  }

  function Find(items: seq<Artifact>, id: Id): (i: nat)
    ensures i <= |items|
    ensures i < |items| ==> items[i].id == id
    ensures forall k :: 0 <= k < i ==> items[k].id != id
  {
    if items == [] || items[0].id == id then 0 else 1 + Find(items[1..], id)
  }

  /** The entries younger than the cutoff, in place. */
  function Prune(items: seq<Artifact>, cutoff: int): (r: seq<Artifact>)
    ensures |r| <= |items|
  {
    if items == [] then []
    else if items[|items| - 1].createdAt < cutoff then Prune(items[..|items| - 1], cutoff)
    else Prune(items[..|items| - 1], cutoff) + [items[|items| - 1]]
  }

  predicate Fits(items: seq<Artifact>, caps: Caps) {
    |items| <= caps.maxItems && TotalBytes(items) <= caps.maxBytes
  }

  function Evict(items: seq<Artifact>, caps: Caps): seq<Artifact> {
    if items == [] || Fits(items, caps) then items else Evict(items[1..], caps)
  }

  /** Dictionary assignment: an existing key keeps its place, a new one goes last. */
  function Insert(items: seq<Artifact>, a: Artifact): seq<Artifact> {
    var i := Find(items, a.id);
    if i < |items| then items[i := a] else items + [a]
  }

  predicate Storable(data: Bytes, caps: Caps) {
    data != [] && |data| <= caps.maxBytes
  }

  function Put(items: seq<Artifact>, caps: Caps, data: Bytes, contentType: string, id: Id,
               now: int): (seq<Artifact>, Outcome<Id, ()>) {
    if !Storable(data, caps) then (items, Raised(()))
    else (Evict(Insert(Prune(items, now - caps.ttl), Artifact(id, contentType, data, now, None)), caps), Ok(id))
  }

  function Bind(items: seq<Artifact>, caps: Caps, id: Id, owner: Owner, now: int): (seq<Artifact>, bool) {
    var kept := Prune(items, now - caps.ttl);
    var i := Find(kept, id);
    if i == |kept| then (kept, false) else (kept[i := kept[i].(owner := Some(owner))], true)
  }

  function RemoveAt(items: seq<Artifact>, k: nat): seq<Artifact>
    requires k < |items|
  {
    items[..k] + items[k + 1..]
  }

  function Take(kept: seq<Artifact>, id: Id, session: Option<Id>): (seq<Artifact>, Option<Artifact>) {
    var i := Find(kept, id);
    if i == |kept| then (kept, None)
    else if kept[i].owner.Some? && session != Some(kept[i].owner.value.sessionId) then (kept, None)
    else (RemoveAt(kept, i), Some(kept[i]))
  }

  function Consume(items: seq<Artifact>, caps: Caps, id: Id, session: Option<Id>,
                   now: int): (seq<Artifact>, Option<Artifact>) {
    Take(Prune(items, now - caps.ttl), id, session)
  }

  // ------------------------------------------------------------- properties

  /** Only nothing at all, or more than the whole store may hold, is refused. */
  lemma PutRefusedIff(items: seq<Artifact>, caps: Caps, data: Bytes, contentType: string, id: Id, now: int)
    ensures var (after, out) := Put(items, caps, data, contentType, id, now);
            && (out.Raised? <==> |data| == 0 || |data| > caps.maxBytes)
            && (out.Raised? ==> after == items) && (out.Ok? ==> out.value == id)
  {
  }

  /** The store's size is the sum of the sizes of what it holds. */
  lemma {:induction false} TotalExactly(a: seq<Artifact>, b: seq<Artifact>)
    ensures TotalBytes(a + b) == TotalBytes(a) + TotalBytes(b)
    ensures |b| == 1 ==> TotalBytes(b) == |b[0].data|
  {
    if a == [] {
      assert a + b == b;
      if |b| == 1 { assert b[1..] == []; }
    } else {
      TotalExactly(a[1..], b);
      assert (a + b)[1..] == a[1..] + b;
    }
  }

  /** Two entries have different ids, and the earlier one is not younger. */
  ghost predicate PairOk(items: seq<Artifact>, i: int, j: int) {
    0 <= i < j < |items| ==> items[i].id != items[j].id && items[i].createdAt <= items[j].createdAt
  }

  ghost predicate Tidy(items: seq<Artifact>) {
    forall i, j {:trigger PairOk(items, i, j)} :: PairOk(items, i, j)
  }

  lemma TidySuffix(items: seq<Artifact>, k: nat)
    requires Tidy(items) && k <= |items|
    ensures Tidy(items[k..])
  {
    forall i, j ensures PairOk(items[k..], i, j) { assert PairOk(items, i + k, j + k); }
  }

  lemma TidyPrefix(items: seq<Artifact>, k: nat)
    requires Tidy(items) && k <= |items|
    ensures Tidy(items[..k])
  {
    forall i, j ensures PairOk(items[..k], i, j) { assert PairOk(items, i, j); }
  }

  lemma TidyAppend(items: seq<Artifact>, a: Artifact)
    requires Tidy(items) && forall i :: 0 <= i < |items| ==> items[i].id != a.id && items[i].createdAt <= a.createdAt
    ensures Tidy(items + [a])
  {
    forall i, j ensures PairOk(items + [a], i, j) { assert PairOk(items, i, j); }
  }

  lemma TidyReplace(items: seq<Artifact>, k: nat, a: Artifact)
    requires Tidy(items) && k < |items| && a.id == items[k].id && a.createdAt == items[k].createdAt
    ensures Tidy(items[k := a])
  {
    var r := items[k := a];
    forall i, j ensures PairOk(r, i, j) { assert PairOk(items, i, j); }
  }

  lemma TidyRemoveAt(items: seq<Artifact>, k: nat)
    requires Tidy(items) && k < |items|
    ensures Tidy(RemoveAt(items, k))
  {
    var r := RemoveAt(items, k);
    forall i, j ensures PairOk(r, i, j) {
      assert PairOk(items, if i < k then i else i + 1, if j < k then j else j + 1);
    }
  }

  /** Eviction keeps the longest suffix that fits: one entry more would not fit. */
  lemma {:induction false} EvictLongestSuffix(items: seq<Artifact>, caps: Caps) returns (k: nat)
    ensures k <= |items| && Evict(items, caps) == items[k..]
    ensures |items| - k <= caps.maxItems && TotalBytes(items[k..]) <= caps.maxBytes
    ensures forall j :: 0 <= j < k ==> |items| - j > caps.maxItems || TotalBytes(items[j..]) > caps.maxBytes
  {
    if items == [] || Fits(items, caps) {
      k := 0;
      assert items[0..] == items;
    } else {
      var m := EvictLongestSuffix(items[1..], caps);
      k := m + 1;
      assert items[k..] == items[1..][m..];
      forall j | 0 <= j < k ensures !Fits(items[j..], caps) {
        if j > 0 { assert items[j..] == items[1..][j - 1..]; } else { assert items[0..] == items; }
      }
    }
  }

  /** With entries in order of age, pruning drops exactly the entries before some
      position: those older than the cutoff. */
  lemma {:induction false} PrunesPrefix(items: seq<Artifact>, cutoff: int) returns (k: nat)
    requires Tidy(items)
    ensures k <= |items| && Prune(items, cutoff) == items[k..]
    ensures forall i :: 0 <= i < k ==> items[i].createdAt < cutoff
    ensures forall i :: k <= i < |items| ==> items[i].createdAt >= cutoff
  {
    if items == [] {
      k := 0;
    } else {
      var n := |items| - 1;
      TidyPrefix(items, n);
      var head := items[..n];
      k := PrunesPrefix(head, cutoff);
      assert k == n || head[k] == items[k];
      if items[n].createdAt < cutoff {
        assert PairOk(items, k, n);
        k := n + 1;
      } else {
        assert items[k..] == items[..n][k..] + [items[n]];
      }
    }
  }

  lemma {:induction false} TotalOfLast(items: seq<Artifact>, caps: Caps)
    requires items != [] && |items[|items| - 1].data| <= caps.maxBytes && caps.maxItems >= 1
    ensures Fits(items[|items| - 1..], caps)
  {
    var last := items[|items| - 1..];
    assert last == [items[|items| - 1]];
    assert last[1..] == [];
  }

  lemma {:induction false} InsertLast(items: seq<Artifact>, a: Artifact)
    requires forall i :: 0 <= i < |items| ==> items[i].id != a.id
    ensures Insert(items, a) == items + [a]
  {
  }

  // ------------------------------------------------------------ over a run

  datatype Op =
    | PutOp(data: Bytes, contentType: string, id: Id)
    | BindOp(artifact: Id, owner: Owner)
    | ConsumeOp(artifact: Id, session: Option<Id>)

  /** `issued`: every id ever handed out; `consumed`: the ids read, oldest first. */
  datatype History = History(items: seq<Artifact>, issued: set<Id>, consumed: seq<Id>, clock: int)

  function Step(h: History, caps: Caps, op: Op, now: int): History {
    match op
    case PutOp(data, contentType, id) =>
      History(Put(h.items, caps, data, contentType, id, now).0, h.issued + {id}, h.consumed, now)
    case BindOp(id, owner) => h.(items := Bind(h.items, caps, id, owner, now).0, clock := now)
    case ConsumeOp(id, session) =>
      var (items, out) := Consume(h.items, caps, id, session, now);
      h.(items := items, clock := now, consumed := if out.Some? then h.consumed + [out.value.id] else h.consumed)
  }

  ghost predicate EntryOk(items: seq<Artifact>, issued: set<Id>, consumed: seq<Id>, clock: int, i: int) {
    0 <= i < |items| ==> items[i].id in issued && items[i].id !in consumed && items[i].createdAt <= clock
  }

  ghost predicate EntriesOk(items: seq<Artifact>, issued: set<Id>, consumed: seq<Id>, clock: int) {
    && (forall i {:trigger EntryOk(items, issued, consumed, clock, i)} :: EntryOk(items, issued, consumed, clock, i))
    && Tidy(items)
  }

  ghost predicate HistoryOk(h: History, caps: Caps) {
    && EntriesOk(h.items, h.issued, h.consumed, h.clock) && Fits(h.items, caps)
    && ReadOnce(h.consumed, h.issued)
  }

  /** No id is listed twice, and only issued ids are. */
  ghost predicate ReadOnce(consumed: seq<Id>, issued: set<Id>) {
    Distinct(consumed) && forall id :: id in consumed ==> id in issued
  }

  lemma {:induction false} SuffixTotal(items: seq<Artifact>, k: nat)
    requires k <= |items|
    ensures TotalBytes(items[k..]) <= TotalBytes(items)
  {
    if k > 0 {
      assert items[k..] == items[1..][k - 1..];
      SuffixTotal(items[1..], k - 1);
    } else {
      assert items[0..] == items;
    }
  }

  lemma SuffixEntries(items: seq<Artifact>, issued: set<Id>, consumed: seq<Id>, clock: int, k: nat, now: int)
    requires EntriesOk(items, issued, consumed, clock) && k <= |items| && clock <= now
    ensures EntriesOk(items[k..], issued, consumed, now)
  {
    TidySuffix(items, k);
    forall i ensures EntryOk(items[k..], issued, consumed, now, i) {
      assert EntryOk(items, issued, consumed, clock, i + k);
    }
  }

  lemma PruneKeepsOk(h: History, caps: Caps, now: int) returns (k: nat)
    requires HistoryOk(h, caps) && h.clock <= now
    ensures k <= |h.items| && Prune(h.items, now - caps.ttl) == h.items[k..]
    ensures forall i :: 0 <= i < k ==> h.items[i].createdAt < now - caps.ttl
    ensures forall i :: k <= i < |h.items| ==> h.items[i].createdAt >= now - caps.ttl
    ensures EntriesOk(h.items[k..], h.issued, h.consumed, now) && Fits(h.items[k..], caps)
  {
    k := PrunesPrefix(h.items, now - caps.ttl);
    SuffixTotal(h.items, k);
    SuffixEntries(h.items, h.issued, h.consumed, h.clock, k, now);
  }

  lemma {:induction false} ReplaceTotal(items: seq<Artifact>, i: nat, a: Artifact)
    requires i < |items| && |a.data| == |items[i].data|
    ensures TotalBytes(items[i := a]) == TotalBytes(items)
  {
    if i > 0 {
      assert items[i := a][1..] == items[1..][i - 1 := a];
      ReplaceTotal(items[1..], i - 1, a);
    } else {
      assert items[0 := a][1..] == items[1..];
    }
  }

  lemma {:induction false} RemoveTotal(items: seq<Artifact>, i: nat)
    requires i < |items|
    ensures TotalBytes(RemoveAt(items, i)) <= TotalBytes(items)
  {
    var left := RemoveAt(items, i);
    if i > 0 {
      assert left[1..] == RemoveAt(items[1..], i - 1);
      RemoveTotal(items[1..], i - 1);
    } else {
      assert left == items[1..];
    }
  }

  lemma AppendEntries(items: seq<Artifact>, issued: set<Id>, consumed: seq<Id>, a: Artifact)
    requires EntriesOk(items, issued, consumed, a.createdAt) && a.id !in issued
             && (forall id :: id in consumed ==> id in issued)
    ensures EntriesOk(items + [a], issued + {a.id}, consumed, a.createdAt)
    ensures forall i :: 0 <= i < |items| ==> items[i].id != a.id
  {
    var now := a.createdAt;
    forall i | 0 <= i < |items| ensures items[i].id != a.id && items[i].createdAt <= now {
      assert EntryOk(items, issued, consumed, now, i);
    }
    TidyAppend(items, a);
    forall i ensures EntryOk(items + [a], issued + {a.id}, consumed, now, i) {
      assert EntryOk(items, issued, consumed, now, i);
    }
  }

  /** What eviction leaves of some entries followed by a new one. */
  lemma EvictAppended(items: seq<Artifact>, a: Artifact, caps: Caps) returns (k: nat)
    requires |a.data| <= caps.maxBytes
    ensures var all := items + [a];
            && k <= |all| && Evict(all, caps) == all[k..] && Fits(all[k..], caps)
            && (forall j :: 0 <= j < k ==> !Fits(all[j..], caps))
            && (caps.maxItems >= 1 <==> k < |all|)
  {
    k := EvictLongestSuffix(items + [a], caps);
    if caps.maxItems >= 1 { TotalOfLast(items + [a], caps); }
  }

  /** After storing under a new id the store is within both bounds, it holds the longest
      suffix of the unexpired entries and the new one that fits, and the artifact just
      stored is still there exactly when the store may hold anything at all. */
  lemma PutBounded(h: History, caps: Caps, data: Bytes, contentType: string, id: Id, now: int) returns (k: nat)
    requires HistoryOk(h, caps) && h.clock <= now && Storable(data, caps) && id !in h.issued
    ensures var after := Put(h.items, caps, data, contentType, id, now).0;
            var all := Prune(h.items, now - caps.ttl) + [Artifact(id, contentType, data, now, None)];
            && k <= |all| && after == all[k..]
            && |after| <= caps.maxItems && TotalBytes(after) <= caps.maxBytes
            && (forall j :: 0 <= j < k ==> |all| - j > caps.maxItems || TotalBytes(all[j..]) > caps.maxBytes)
            && (caps.maxItems >= 1 <==> k < |all|)
  {
    var p := PruneKeepsOk(h, caps, now);
    var a := Artifact(id, contentType, data, now, None);
    AppendEntries(h.items[p..], h.issued, h.consumed, a);
    InsertLast(h.items[p..], a);
    k := EvictAppended(h.items[p..], a, caps);
  }

  /** A case of a store that may hold nothing: the put succeeds and nothing is kept. */
  lemma PutKeepsNothing(caps: Caps, data: Bytes, contentType: string, id: Id, now: int)
    requires caps.maxItems == 0 && Storable(data, caps)
    ensures Put([], caps, data, contentType, id, now) == ([], Ok(id))
  {
    var a := Artifact(id, contentType, data, now, None);
    assert Prune([], now - caps.ttl) == [] && Insert([], a) == [a];
    assert !Fits([a], caps) && [a][1..] == [];
    assert Evict([a], caps) == Evict([], caps) == [];
  }

  lemma PutKeepsOk(h: History, caps: Caps, data: Bytes, contentType: string, id: Id, now: int)
    requires HistoryOk(h, caps) && h.clock <= now && id !in h.issued
    ensures HistoryOk(Step(h, caps, PutOp(data, contentType, id), now), caps)
  {
    if Storable(data, caps) {
      var p := PruneKeepsOk(h, caps, now);
      var kept := h.items[p..];
      var a := Artifact(id, contentType, data, now, None);
      AppendEntries(kept, h.issued, h.consumed, a);
      InsertLast(kept, a);
      var k := EvictLongestSuffix(kept + [a], caps);
      SuffixEntries(kept + [a], h.issued + {id}, h.consumed, now, k, now);
    } else {
      SuffixEntries(h.items, h.issued, h.consumed, h.clock, 0, now);
      forall i ensures EntryOk(h.items, h.issued + {id}, h.consumed, now, i) {
        assert EntryOk(h.items, h.issued, h.consumed, h.clock, i);
      }
    }
  }

  lemma BindKeepsOk(h: History, caps: Caps, id: Id, owner: Owner, now: int)
    requires HistoryOk(h, caps) && h.clock <= now
    ensures HistoryOk(Step(h, caps, BindOp(id, owner), now), caps)
  {
    var p := PruneKeepsOk(h, caps, now);
    var kept := h.items[p..];
    var i := Find(kept, id);
    if i < |kept| {
      var bound := kept[i := kept[i].(owner := Some(owner))];
      ReplaceTotal(kept, i, bound[i]);
      TidyReplace(kept, i, bound[i]);
      forall j ensures EntryOk(bound, h.issued, h.consumed, now, j) {
        assert EntryOk(kept, h.issued, h.consumed, now, j);
      }
    }
  }

  lemma RemoveAtEntries(items: seq<Artifact>, issued: set<Id>, consumed: seq<Id>, clock: int, k: nat)
    requires EntriesOk(items, issued, consumed, clock) && k < |items|
    ensures EntriesOk(RemoveAt(items, k), issued, consumed + [items[k].id], clock)
    ensures items[k].id in issued && items[k].id !in consumed
  {
    TidyRemoveAt(items, k);
    var r := RemoveAt(items, k);
    assert EntryOk(items, issued, consumed, clock, k);
    forall j ensures EntryOk(r, issued, consumed + [items[k].id], clock, j) {
      var i := if j < k then j else j + 1;
      assert EntryOk(items, issued, consumed, clock, i) && PairOk(items, i, k) && PairOk(items, k, i);
    }
  }

  lemma TakeKeepsOk(kept: seq<Artifact>, issued: set<Id>, consumed: seq<Id>, clock: int, caps: Caps, id: Id,
                    session: Option<Id>)
    requires EntriesOk(kept, issued, consumed, clock) && Fits(kept, caps) && ReadOnce(consumed, issued)
    ensures var (after, out) := Take(kept, id, session);
            && Fits(after, caps)
            && (out.Some? ==> EntriesOk(after, issued, consumed + [out.value.id], clock)
                              && ReadOnce(consumed + [out.value.id], issued))
            && (out.None? ==> after == kept)
  {
    var i := Find(kept, id);
    if i < |kept| {
      RemoveTotal(kept, i);
      RemoveAtEntries(kept, issued, consumed, clock, i);
      DistinctAppend(consumed, kept[i].id);
    }
  }

  lemma ConsumeKeepsOk(h: History, caps: Caps, id: Id, session: Option<Id>, now: int)
    requires HistoryOk(h, caps) && h.clock <= now
    ensures HistoryOk(Step(h, caps, ConsumeOp(id, session), now), caps)
  {
    var p := PruneKeepsOk(h, caps, now);
    TakeKeepsOk(h.items[p..], h.issued, h.consumed, now, caps, id, session);
    ConsumeStepIs(h, caps, id, session, now);
  }

  lemma ConsumeStepIs(h: History, caps: Caps, id: Id, session: Option<Id>, now: int)
    ensures var (items, out) := Take(Prune(h.items, now - caps.ttl), id, session);
            Step(h, caps, ConsumeOp(id, session), now)
            == History(items, h.issued, if out.Some? then h.consumed + [out.value.id] else h.consumed, now)
  {
  }

  /** Every operation keeps the bounds, the order of age, and what was read read once. */
  lemma StepKeepsOk(h: History, caps: Caps, op: Op, now: int)
    requires HistoryOk(h, caps) && h.clock <= now
    requires op.PutOp? ==> op.id !in h.issued
    ensures HistoryOk(Step(h, caps, op, now), caps)
  {
    match op {
      case PutOp(data, contentType, id) => PutKeepsOk(h, caps, data, contentType, id, now);
      case BindOp(id, owner) => BindKeepsOk(h, caps, id, owner, now);
      case ConsumeOp(id, session) => ConsumeKeepsOk(h, caps, id, session, now);
    }
  }

  datatype Timed = Timed(op: Op, now: int)

  /** A run whose clock never goes back and whose new ids are new. */
  ghost predicate Steady(issued: set<Id>, clock: int, ops: seq<Timed>)
    decreases |ops|
  {
    ops == [] ||
    (var first := ops[0];
     && clock <= first.now && (first.op.PutOp? ==> first.op.id !in issued)
     && Steady(if first.op.PutOp? then issued + {first.op.id} else issued, first.now, ops[1..]))
  }

  function Run(h: History, caps: Caps, ops: seq<Timed>): History
    decreases |ops|
  {
    if ops == [] then h else Run(Step(h, caps, ops[0].op, ops[0].now), caps, ops[1..])
  }

  /** Along every run the store stays within its bounds, in order of age, and no
      artifact is handed out twice or kept after it was handed out. */
  lemma {:induction false} RunKeepsOk(h: History, caps: Caps, ops: seq<Timed>)
    requires HistoryOk(h, caps) && Steady(h.issued, h.clock, ops)
    ensures HistoryOk(Run(h, caps, ops), caps)
    decreases |ops|
  {
    if ops != [] {
      StepKeepsOk(h, caps, ops[0].op, ops[0].now);
      StepBooks(h, caps, ops[0].op, ops[0].now);
      RunKeepsOk(Step(h, caps, ops[0].op, ops[0].now), caps, ops[1..]);
    }
  }

  lemma StepBooks(h: History, caps: Caps, op: Op, now: int)
    ensures var h' := Step(h, caps, op, now);
            h'.clock == now && h'.issued == if op.PutOp? then h.issued + {op.id} else h.issued
  {
  }

  predicate Readable(a: Artifact, id: Id, session: Option<Id>) {
    a.id == id && (a.owner.None? || Some(a.owner.value.sessionId) == session)
  }

  /** An artifact is handed out exactly when it is kept, young enough, and unbound or
      bound to the asking session; then it alone is removed. */
  lemma ConsumeExactly(h: History, caps: Caps, id: Id, session: Option<Id>, now: int)
    requires HistoryOk(h, caps) && h.clock <= now
    ensures var (after, out) := Consume(h.items, caps, id, session, now);
            var kept := Prune(h.items, now - caps.ttl);
            && (out.None? ==> after == kept && forall i :: 0 <= i < |kept| ==> !Readable(kept[i], id, session))
            && (out.Some? ==> exists i :: 0 <= i < |kept| && Readable(kept[i], id, session)
                                && out == Some(kept[i]) && after == RemoveAt(kept, i))
  {
    var p := PruneKeepsOk(h, caps, now);
    TakeExactly(h.items[p..], id, session);
  }

  lemma TakeExactly(kept: seq<Artifact>, id: Id, session: Option<Id>)
    requires Tidy(kept)
    ensures var (after, out) := Take(kept, id, session);
            && (out.None? ==> after == kept && forall i :: 0 <= i < |kept| ==> !Readable(kept[i], id, session))
            && (out.Some? ==> exists i :: 0 <= i < |kept| && Readable(kept[i], id, session)
                                && out == Some(kept[i]) && after == RemoveAt(kept, i))
  {
    var k := Find(kept, id);
    forall i | 0 <= i < |kept| && kept[i].id == id ensures i == k {
      assert PairOk(kept, i, k) && PairOk(kept, k, i);
    }
    if k < |kept| { assert Readable(kept[k], id, session) <==> Take(kept, id, session).1.Some?; }
  }

  /** Binding drops the expired entries and changes nothing else but the owner of the
      named entry: its place and age stay. */
  lemma BindKeepsPlaces(h: History, caps: Caps, id: Id, owner: Owner, now: int)
    requires HistoryOk(h, caps) && h.clock <= now
    ensures var (after, ok) := Bind(h.items, caps, id, owner, now);
            var kept := Prune(h.items, now - caps.ttl);
            && |after| == |kept|
            && (ok <==> exists i :: 0 <= i < |kept| && kept[i].id == id)
            && forall i :: 0 <= i < |kept| ==>
                 after[i] == if kept[i].id == id then kept[i].(owner := Some(owner)) else kept[i]
  {
    var p := PruneKeepsOk(h, caps, now);
    var kept := h.items[p..];
    var k := Find(kept, id);
    forall i | 0 <= i < |kept| && kept[i].id == id ensures i == k {
      assert PairOk(kept, i, k) && PairOk(kept, k, i);
    }
  }
}

/** The artifact store as the program runs it: an ordered dictionary updated in place. */
module ArtifactStores {
  import opened Collections
  import opened Artifacts

  class AudioArtifactStore {
    const caps: Caps
    var items: seq<Artifact>

    constructor (caps: Caps)
      ensures items == [] && this.caps == caps
    {
      this.caps, items := caps, [];
    }

    method RemoveExpired(now: int)
      modifies this`items
      ensures items == Prune(old(items), now - caps.ttl)
    {
      var kept: seq<Artifact> := [];
      for i := 0 to |items|
        invariant items == old(items) && kept == Prune(items[..i], now - caps.ttl)
      {
        assert items[..i + 1][..i] == items[..i];
        if items[i].createdAt >= now - caps.ttl { kept := kept + [items[i]]; }
      }
      assert items[..|items|] == items;
      items := kept;
    }

    method Total() returns (n: nat)
      ensures n == TotalBytes(items)
    {
      n := 0;
      for i := |items| downto 0
        invariant n == TotalBytes(items[i..])
      {
        assert items[i..][1..] == items[i + 1..];
        n := n + |items[i].data|;
      }
      assert items[0..] == items;
    }

    /** Within both bounds afterwards, by dropping as few of the oldest as possible. */
    method Put(data: Bytes, contentType: string, id: Id, now: int) returns (out: Outcome<Id, ()>)
      modifies this`items
      ensures (items, out) == Artifacts.Put(old(items), caps, data, contentType, id, now)
    {
      if !Storable(data, caps) { return Raised(()); }
      RemoveExpired(now);
      ghost var kept := items;
      var a := Artifact(id, contentType, data, now, None);
      var i := Find(items, id);
      items := if i < |items| then items[i := a] else items + [a];
      var total := Total();
      while |items| > caps.maxItems || total > caps.maxBytes
        invariant total == TotalBytes(items)
        invariant Evict(items, caps) == Evict(Insert(kept, a), caps)
        decreases |items|
      {
        items := items[1..];
        total := Total();
      }
      return Ok(id);
    }

    method Bind(id: Id, owner: Owner, now: int) returns (ok: bool)
      modifies this`items
      ensures (items, ok) == Artifacts.Bind(old(items), caps, id, owner, now)
    {
      RemoveExpired(now);
      var i := Find(items, id);
      if i == |items| { return false; }
      items := items[i := items[i].(owner := Some(owner))];
      return true;
    }

    method Consume(id: Id, session: Option<Id>, now: int) returns (out: Option<Artifact>)
      modifies this`items
      ensures (items, out) == Artifacts.Consume(old(items), caps, id, session, now)
    {
      RemoveExpired(now);
      var i := Find(items, id);
      if i == |items| { return None; }
      var a := items[i];
      if a.owner.Some? && session != Some(a.owner.value.sessionId) { return None; }
      items := items[..i] + items[i + 1..];
      return Some(a);
    }
  }
}
