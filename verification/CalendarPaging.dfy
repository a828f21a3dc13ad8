/** Reading the events of several calendars page by page, within two bounds.  `fetch` is
    the transport; it gets a call number, so that asking twice may answer differently. */
module CalendarPaging {
  import opened Collections

  /** A normalized event: what the result's keys and order depend on.  `occurrence` is the
      original start, else the start, in ISO form; `marker` the start's sort text; `title`
      is case-folded. */
  datatype Event = Event(id: string, calendar: string, title: string, occurrence: Option<string>,
                         recurring: Option<string>,
                         marker: string, link: Option<string>)

  type Key = (string, string, string)

  function KeyOf(e: Event): Key {
    (e.calendar, if e.recurring.Some? then e.recurring.value else e.id,
     if e.occurrence.Some? then e.occurrence.value else e.id)
  }

  /** The same occurrence of the same series, or the same single event, of one calendar. */
  ghost predicate SameOccurrence(a: Event, b: Event) {
    && a.calendar == b.calendar
    && (match a.recurring case Some(series) => series case None => a.id)
       == (match b.recurring case Some(series) => series case None => b.id)
    && (match a.occurrence case Some(start) => start case None => a.id)
       == (match b.occurrence case Some(start) => start case None => b.id)
  }

  lemma KeyExactly(a: Event, b: Event)
    ensures KeyOf(a) == KeyOf(b) <==> SameOccurrence(a, b)
  {
  }

  /** An entry of a page: not an object at all, an object that does not parse, or an event. */
  datatype Raw = NotAnObject | Malformed | Item(event: Event)

  /** `items` is `None` when the response holds no list. */
  datatype Page = Page(items: Option<seq<Raw>>, next: Option<string>)

  datatype Call = Call(number: nat, calendar: string, token: Option<string>, page: Page)

  type Fetch = (nat, string, Option<string>) -> Outcome<Page, ()>

  datatype Fault = InvalidRequest | AccountNotConfigured | MalformedResponse | TransportFailed

  datatype Listing = Listing(events: seq<Event>, links: seq<string>, truncated: bool, continuation: Option<string>)

  // -------------------------------------------------------------- what is kept

  ghost function Keys(events: seq<Event>): set<Key> {
    set e | e in events :: KeyOf(e)
  }

  ghost predicate DistinctPair(events: seq<Event>, i: int, j: int) {
    0 <= i < j < |events| ==> KeyOf(events[i]) != KeyOf(events[j])
  }

  ghost predicate DistinctKeys(events: seq<Event>) {
    forall i, j {:trigger DistinctPair(events, i, j)} :: DistinctPair(events, i, j)
  }

  /** Item `i`, read for this calendar, is represented in the result. */
  ghost predicate Kept(items: seq<Raw>, calendar: string, keys: set<Key>, i: int) {
    0 <= i < |items| && items[i].Item? ==> KeyOf(items[i].event.(calendar := calendar)) in keys
  }

  ghost predicate AllKept(items: seq<Raw>, calendar: string, keys: set<Key>) {
    forall i {:trigger Kept(items, calendar, keys, i)} :: Kept(items, calendar, keys, i)
  }

  lemma KeptGrows(items: seq<Raw>, calendar: string, a: set<Key>, b: set<Key>)
    requires AllKept(items, calendar, a) && a <= b
    ensures AllKept(items, calendar, b)
  {
    forall i ensures Kept(items, calendar, b, i) { assert Kept(items, calendar, a, i); }
  }

  /** The pages the transport gave for one calendar: the first asked for without a token,
      each later one with the token of the page before. */
  ghost predicate Linked(fetch: Fetch, calls: seq<Call>, calendar: string, i: int) {
    0 <= i < |calls| ==>
      && calls[i].calendar == calendar && calls[i].page.items.Some?
      && calls[i].token == (if i == 0 then None else calls[i - 1].page.next) && (i > 0 ==> calls[i].token.Some?)
      && fetch(calls[i].number, calendar, calls[i].token) == Ok(calls[i].page)
  }

  ghost predicate Chain(fetch: Fetch, calls: seq<Call>, calendar: string) {
    forall i {:trigger Linked(fetch, calls, calendar, i)} :: Linked(fetch, calls, calendar, i)
  }

  lemma ChainGrows(fetch: Fetch, calls: seq<Call>, calendar: string, call: Call)
    requires Chain(fetch, calls, calendar) && call.calendar == calendar && call.page.items.Some?
    requires call.token == (if calls == [] then None else calls[|calls| - 1].page.next)
             && (calls != [] ==> call.token.Some?)
    requires fetch(call.number, calendar, call.token) == Ok(call.page)
    ensures Chain(fetch, calls + [call], calendar)
  {
    var more := calls + [call];
    forall i ensures Linked(fetch, more, calendar, i) { assert Linked(fetch, calls, calendar, i); }
  }

  ghost predicate CallKept(calls: seq<Call>, keys: set<Key>, i: int) {
    0 <= i < |calls| && calls[i].page.items.Some? ==> AllKept(calls[i].page.items.value, calls[i].calendar, keys)
  }

  ghost predicate CallsKept(calls: seq<Call>, keys: set<Key>) {
    forall i {:trigger CallKept(calls, keys, i)} :: CallKept(calls, keys, i)
  }

  lemma CallsKeptGrow(calls: seq<Call>, a: set<Key>, b: set<Key>)
    requires CallsKept(calls, a) && a <= b
    ensures CallsKept(calls, b)
  {
    forall i ensures CallKept(calls, b, i) {
      assert CallKept(calls, a, i);
      if 0 <= i < |calls| && calls[i].page.items.Some? {
        KeptGrows(calls[i].page.items.value, calls[i].calendar, a, b);
      }
    }
  }

  lemma CallAdded(calls: seq<Call>, call: Call, keys: set<Key>)
    requires CallsKept(calls, keys) && (call.page.items.Some? ==> AllKept(call.page.items.value, call.calendar, keys))
    ensures CallsKept(calls + [call], keys)
  {
    var more := calls + [call];
    forall i ensures CallKept(more, keys, i) { assert CallKept(calls, keys, i); }
  }

  /** The whole chain of a calendar was followed, to a page without a next token. */
  ghost predicate Followed(fetch: Fetch, calls: seq<Call>, calendar: string) {
    Chain(fetch, calls, calendar) && calls != [] && calls[|calls| - 1].page.next.None?
  }

  /** The event was an item of this page, of one of these calls, of one of these chains. */
  ghost predicate InItems(items: seq<Raw>, calendar: string, e: Event) {
    exists i :: 0 <= i < |items| && items[i].Item? && e == items[i].event.(calendar := calendar)
  }

  ghost predicate InCalls(calls: seq<Call>, e: Event) {
    exists i ::
        0 <= i < |calls| && calls[i].page.items.Some? && InItems(calls[i].page.items.value, calls[i].calendar, e)
  }

  ghost predicate InChains(chains: seq<seq<Call>>, e: Event) {
    exists k :: 0 <= k < |chains| && InCalls(chains[k], e)
  }

  ghost predicate AllInCalls(calls: seq<Call>, events: seq<Event>, n: nat) {
    forall i :: n <= i < |events| ==> InCalls(calls, events[i])
  }

  lemma InMoreCalls(calls: seq<Call>, call: Call, events0: seq<Event>, events: seq<Event>, n: nat)
    requires n <= |events0| && events0 <= events && AllInCalls(calls, events0, n) && call.page.items.Some?
    requires forall i :: |events0| <= i < |events| ==> InItems(call.page.items.value, call.calendar, events[i])
    ensures AllInCalls(calls + [call], events, n)
  {
    var more := calls + [call];
    forall i | n <= i < |events| ensures InCalls(more, events[i]) {
      if i < |events0| {
        var x :| 0 <= x < |calls| && calls[x].page.items.Some?
          && InItems(calls[x].page.items.value, calls[x].calendar, events0[i]);
        assert more[x] == calls[x];
      } else {
        assert more[|calls|] == call;
      }
    }
  }

  ghost predicate AllInChains(chains: seq<seq<Call>>, events: seq<Event>) {
    forall e :: e in events ==> InChains(chains, e)
  }

  lemma InMoreChains(chains: seq<seq<Call>>, calls: seq<Call>, events0: seq<Event>, events: seq<Event>)
    requires AllInChains(chains, events0) && events0 <= events && AllInCalls(calls, events, |events0|)
    ensures AllInChains(chains + [calls], events)
  {
    var more := chains + [calls];
    forall e | e in events ensures InChains(more, e) {
      if e in events0 {
        var k :| 0 <= k < |chains| && InCalls(chains[k], e);
        assert more[k] == chains[k];
      } else {
        var i :| 0 <= i < |events| && events[i] == e;
        assert i >= |events0|;
        assert more[|chains|] == calls;
      }
    }
  }

  // ------------------------------------------------------- what is listed

  /** The events a page holds, in order, for the calendar it was read for. */
  ghost function EventsOf(items: seq<Raw>, calendar: string): seq<Event> {
    if items == [] then []
    else
      var last := items[|items| - 1];
      EventsOf(items[..|items| - 1], calendar) + if last.Item? then [last.event.(calendar := calendar)] else []
  }

  ghost function EventsRead(calls: seq<Call>): seq<Event> {
    if calls == [] then []
    else
      var last := calls[|calls| - 1];
      EventsRead(calls[..|calls| - 1]) + if last.page.items.Some? then EventsOf(last.page.items.value, last.calendar)
        else []
  }

  ghost function AllRead(chains: seq<seq<Call>>): seq<Event> {
    if chains == [] then [] else AllRead(chains[..|chains| - 1]) + EventsRead(chains[|chains| - 1])
  }

  /** The first of each occurrence, added until there are `max`. */
  ghost function AddFirsts(events: seq<Event>, more: seq<Event>, max: nat): seq<Event> {
    if more == [] then events
    else
      var before := AddFirsts(events, more[..|more| - 1], max);
      if |before| >= max || KeyOf(more[|more| - 1]) in Keys(before) then before else before + [more[|more| - 1]]
  }

  lemma {:induction false} AddFirstsConcat(events: seq<Event>, a: seq<Event>, b: seq<Event>, max: nat)
    ensures AddFirsts(events, a + b, max) == AddFirsts(AddFirsts(events, a, max), b, max)
    decreases |b|
  {
    if b == [] {
      assert a + b == a;
    } else {
      assert (a + b)[..|a + b| - 1] == a + b[..|b| - 1];
      AddFirstsConcat(events, a, b[..|b| - 1], max);
    }
  }

  lemma {:induction false} FullStays(events: seq<Event>, more: seq<Event>, max: nat)
    requires |events| >= max
    ensures AddFirsts(events, more, max) == events
    decreases |more|
  {
    if more != [] { FullStays(events, more[..|more| - 1], max); }
  }

  lemma {:induction false} EventsOfConcat(items: seq<Raw>, n: nat, calendar: string)
    requires n <= |items|
    ensures EventsOf(items, calendar) == EventsOf(items[..n], calendar) + EventsOf(items[n..], calendar)
    decreases |items|
  {
    if n == |items| {
      assert items[..n] == items && items[n..] == [];
    } else {
      var k := |items| - 1;
      EventsOfConcat(items[..k], n, calendar);
      assert items[..k][..n] == items[..n] && items[..k][n..] == items[n..][..|items[n..]| - 1];
    }
  }

  /** Event `e` is in the list, as itself or as the same occurrence met before. */
  ghost predicate Represented(events: seq<Event>, e: Event) {
    exists x :: 0 <= x < |events| && SameOccurrence(events[x], e)
  }

  lemma InKeysRepresented(events: seq<Event>, e: Event)
    ensures KeyOf(e) in Keys(events) <==> Represented(events, e)
  {
    if KeyOf(e) in Keys(events) {
      var f :| f in events && KeyOf(f) == KeyOf(e);
      var x :| 0 <= x < |events| && events[x] == f;
      KeyExactly(f, e);
    }
    if x :| 0 <= x < |events| && SameOccurrence(events[x], e) {
      KeyExactly(events[x], e);
      assert events[x] in events;
    }
  }

  ghost predicate NoTwoAlike(events: seq<Event>) {
    forall i, j :: 0 <= i < j < |events| ==> !SameOccurrence(events[i], events[j])
  }

  lemma DistinctNotAlike(events: seq<Event>)
    requires DistinctKeys(events)
    ensures NoTwoAlike(events)
  {
    forall i, j | 0 <= i < j < |events| ensures !SameOccurrence(events[i], events[j]) {
      assert DistinctPair(events, i, j);
      KeyExactly(events[i], events[j]);
    }
  }

  /** `links` are the links of the events, each once. */
  ghost predicate LinksOk(events: seq<Event>, links: seq<string>) {
    Distinct(links) && forall l :: l in links <==> exists e :: e in events && e.link == Some(l)
  }

  lemma LinkAdded(events: seq<Event>, links: seq<string>, e: Event)
    requires LinksOk(events, links)
    ensures LinksOk(events + [e], if e.link.Some? && e.link.value !in links then links + [e.link.value] else links)
  {
    var more := events + [e];
    var links' := if e.link.Some? && e.link.value !in links then links + [e.link.value] else links;
    assert more[|events|] == e;
    forall l ensures l in links' <==> exists f :: f in more && f.link == Some(l) {
      if l in links {
        var f :| f in events && f.link == Some(l);
        assert f in more;
      }
    }
    if links' != links { DistinctAppend(links, e.link.value); }
  }

  // -------------------------------------------------------------------- loops

  lemma AddedKey(events: seq<Event>, e: Event)
    requires DistinctKeys(events) && KeyOf(e) !in Keys(events)
    ensures DistinctKeys(events + [e]) && Keys(events + [e]) == Keys(events) + {KeyOf(e)}
  {
    var more := events + [e];
    forall i, j ensures DistinctPair(more, i, j) { assert DistinctPair(events, i, j); }
  }

  ghost predicate FromCalendars(events: seq<Event>, calendars: seq<string>) {
    forall i :: 0 <= i < |events| ==> events[i].calendar in calendars
  }

  ghost predicate FromPage(items: seq<Raw>, calendar: string, events: seq<Event>, from: nat) {
    forall k :: from <= k < |events| ==> InItems(items, calendar, events[k])
  }

  ghost predicate KeptUpTo(items: seq<Raw>, calendar: string, seen: set<Key>, n: nat) {
    forall k {:trigger Kept(items, calendar, seen, k)} :: k < n ==> Kept(items, calendar, seen, k)
  }

  ghost predicate ListOk(events0: seq<Event>, events: seq<Event>, seen: set<Key>, links: seq<string>) {
    events0 <= events && DistinctKeys(events) && seen == Keys(events) && LinksOk(events, links)
  }

  /** The first `n` items of a page have been taken in. */
  ghost predicate Taken(items: seq<Raw>, calendar: string, maxEvents: nat, events0: seq<Event>, n: nat,
                        events: seq<Event>, seen: set<Key>, links: seq<string>)
    requires n <= |items|
  {
    && ListOk(events0, events, seen, links)
    && events == AddFirsts(events0, EventsOf(items[..n], calendar), maxEvents)
    && FromPage(items, calendar, events, |events0|) && KeptUpTo(items, calendar, seen, n)
  }

  lemma SkipItem(items: seq<Raw>, calendar: string, maxEvents: nat, events0: seq<Event>, n: nat, events: seq<Event>,
                 seen: set<Key>, links: seq<string>)
    requires n < |items| && Taken(items, calendar, maxEvents, events0, n, events, seen, links)
    requires items[n].Item? ==> KeyOf(items[n].event.(calendar := calendar)) in seen
    ensures Taken(items, calendar, maxEvents, events0, n + 1, events, seen, links)
  {
    AddNextItem(items, calendar, maxEvents, events0, n);
  }

  lemma AddNextItem(items: seq<Raw>, calendar: string, maxEvents: nat, events0: seq<Event>, n: nat)
    requires n < |items|
    ensures var before := AddFirsts(events0, EventsOf(items[..n], calendar), maxEvents);
            AddFirsts(events0, EventsOf(items[..n + 1], calendar), maxEvents)
            == if items[n].Item? then
                 var e := items[n].event.(calendar := calendar);
                 if |before| >= maxEvents || KeyOf(e) in Keys(before) then before else before + [e]
               else before
  {
    assert items[..n + 1][..n] == items[..n];
    var before := EventsOf(items[..n], calendar);
    if items[n].Item? {
      var e := items[n].event.(calendar := calendar);
      AddFirstsConcat(events0, before, [e], maxEvents);
      AddOneFirst(AddFirsts(events0, before, maxEvents), e, maxEvents);
    } else {
      assert before + [] == before;
    }
  }

  lemma AddOneFirst(events: seq<Event>, e: Event, max: nat)
    ensures AddFirsts(events, [e], max) == if |events| >= max || KeyOf(e) in Keys(events) then events else events + [e]
  {
    assert [e][..0] == [] && AddFirsts(events, [e][..0], max) == events;
  }

  lemma NewItem(items: seq<Raw>, calendar: string, maxEvents: nat, events0: seq<Event>, n: nat, events: seq<Event>,
                seen: set<Key>, links: seq<string>, e: Event)
    requires n < |items| && Taken(items, calendar, maxEvents, events0, n, events, seen, links) && |events| < maxEvents
    requires items[n].Item? && e == items[n].event.(calendar := calendar) && KeyOf(e) !in seen
    ensures Taken(items, calendar, maxEvents, events0, n + 1, events + [e], seen + {KeyOf(e)},
                  if e.link.Some? && e.link.value !in links then links + [e.link.value] else links)
  {
    ListGrows(events0, events, seen, links, e);
    AddNextItem(items, calendar, maxEvents, events0, n);
    FromPageGrows(items, calendar, events, |events0|, e, n);
    KeptOneMore(items, calendar, seen, n, KeyOf(e));
  }

  lemma ListGrows(events0: seq<Event>, events: seq<Event>, seen: set<Key>, links: seq<string>, e: Event)
    requires ListOk(events0, events, seen, links) && KeyOf(e) !in seen
    ensures ListOk(events0, events + [e], seen + {KeyOf(e)},
                   if e.link.Some? && e.link.value !in links then links + [e.link.value] else links)
  {
    AddedKey(events, e);
    LinkAdded(events, links, e);
  }

  lemma FromPageGrows(items: seq<Raw>, calendar: string, events: seq<Event>, from: nat, e: Event, n: nat)
    requires FromPage(items, calendar, events, from)
    requires n < |items| && items[n].Item? && e == items[n].event.(calendar := calendar)
    ensures FromPage(items, calendar, events + [e], from)
  {
  }

  lemma KeptOneMore(items: seq<Raw>, calendar: string, seen: set<Key>, n: nat, key: Key)
    requires KeptUpTo(items, calendar, seen, n)
    requires n < |items| && items[n].Item? ==> KeyOf(items[n].event.(calendar := calendar)) == key
    ensures KeptUpTo(items, calendar, seen + {key}, n + 1)
  {
    forall k | k < n + 1 ensures Kept(items, calendar, seen + {key}, k) {
      assert k < n ==> Kept(items, calendar, seen, k);
    }
  }

  lemma FromCalendarsGrows(events: seq<Event>, calendars: seq<string>, e: Event)
    requires FromCalendars(events, calendars) && e.calendar in calendars
    ensures FromCalendars(events + [e], calendars)
  {
  }

  /** Once the bound is reached the rest of the page changes nothing. */
  lemma FullTakesNoMore(items: seq<Raw>, calendar: string, maxEvents: nat, events0: seq<Event>, n: nat,
                        events: seq<Event>)
    requires n <= |items| && events == AddFirsts(events0, EventsOf(items[..n], calendar), maxEvents)
    requires |events| >= maxEvents
    ensures events == AddFirsts(events0, EventsOf(items, calendar), maxEvents)
  {
    EventsOfConcat(items, n, calendar);
    AddFirstsConcat(events0, EventsOf(items[..n], calendar), EventsOf(items[n..], calendar), maxEvents);
    FullStays(events, EventsOf(items[n..], calendar), maxEvents);
  }

  /** The items of one page, until the event bound is reached or one does not parse. */
  method AddItems(items: seq<Raw>, calendar: string, calendars: seq<string>, maxEvents: nat, events0: seq<Event>,
                  seen0: set<Key>, links0: seq<string>)
    returns (ok: bool, full: bool, events: seq<Event>, seen: set<Key>, links: seq<string>)
    requires |events0| < maxEvents && DistinctKeys(events0) && seen0 == Keys(events0)
    requires calendar in calendars && FromCalendars(events0, calendars) && LinksOk(events0, links0)
    ensures ok ==> events == AddFirsts(events0, EventsOf(items, calendar), maxEvents)
    ensures ok ==> ListOk(events0, events, seen, links) && FromCalendars(events, calendars)
    ensures ok ==> FromPage(items, calendar, events, |events0|)
    ensures ok && full ==> |events| == maxEvents
    ensures ok && !full ==> |events| < maxEvents && AllKept(items, calendar, seen)
    ensures !ok ==> Malformed in items
  {
    ok, full, events, seen, links := true, false, events0, seen0, links0;
    assert items[..0] == [];
    for i := 0 to |items|
      invariant ok && !full && |events| < maxEvents && FromCalendars(events, calendars)
      invariant Taken(items, calendar, maxEvents, events0, i, events, seen, links)
    {
      if items[i].Malformed? { return false, false, events, seen, links; }
      if items[i].NotAnObject? || KeyOf(items[i].event.(calendar := calendar)) in seen {
        SkipItem(items, calendar, maxEvents, events0, i, events, seen, links);
        continue;
      }
      var e := items[i].event.(calendar := calendar);
      NewItem(items, calendar, maxEvents, events0, i, events, seen, links, e);
      FromCalendarsGrows(events, calendars, e);
      seen := seen + {KeyOf(e)};
      events := events + [e];
      if e.link.Some? && e.link.value !in links { links := links + [e.link.value]; }
      if |events| >= maxEvents {
        FullTakesNoMore(items, calendar, maxEvents, events0, i + 1, events);
        return true, true, events, seen, links;
      }
    }
    TakenAll(items, calendar, maxEvents, events0, events, seen, links);
  }

  lemma TakenAll(items: seq<Raw>, calendar: string, maxEvents: nat, events0: seq<Event>, events: seq<Event>,
                 seen: set<Key>, links: seq<string>)
    requires Taken(items, calendar, maxEvents, events0, |items|, events, seen, links)
    ensures events == AddFirsts(events0, EventsOf(items, calendar), maxEvents) && AllKept(items, calendar, seen)
  {
    assert items[..|items|] == items;
    forall k ensures Kept(items, calendar, seen, k) {}
  }

  /** What has been read so far, across calendars. */
  datatype Progress = Progress(events: seq<Event>, seen: set<Key>, links: seq<string>, calls: nat)

  ghost predicate ProgressOk(p: Progress, calendars: seq<string>, maxEvents: nat) {
    DistinctKeys(p.events) && p.seen == Keys(p.events) && FromCalendars(p.events, calendars) && |p.events| <= maxEvents
    && LinksOk(p.events, p.links)
  }

  datatype Ending = Finished | Full(next: Option<string>) | OutOfPages(token: string) | Failed(fault: Fault)

  /** Why a reading fails: the transport did, or a response or one of its items is malformed. */
  ghost predicate Fails(fetch: Fetch, calendar: string, fault: Fault) {
    exists n, token :: FailsAt(fetch(n, calendar, token), fault)
  }

  ghost predicate FailsAt(response: Outcome<Page, ()>, fault: Fault) {
    || (response.Raised? && fault == TransportFailed)
    || (response.Ok? && fault == MalformedResponse
        && (response.value.items.None? || Malformed in response.value.items.value))
  }

  /** The calls made so far account for what was read since `start`. */
  ghost predicate ReadBy(fetch: Fetch, calendar: string, maxEvents: nat, start: Progress, calls: seq<Call>,
                         events: seq<Event>) {
    && Chain(fetch, calls, calendar) && AllInCalls(calls, events, |start.events|)
    && events == AddFirsts(start.events, EventsRead(calls), maxEvents)
    && start.events <= events && Keys(start.events) <= Keys(events)
  }

  lemma PageRead(fetch: Fetch, calendar: string, maxEvents: nat, start: Progress, calls: seq<Call>, call: Call,
                 before: seq<Event>, events: seq<Event>)
    requires ReadBy(fetch, calendar, maxEvents, start, calls, before)
    requires call.calendar == calendar && call.page.items.Some?
             && fetch(call.number, calendar, call.token) == Ok(call.page)
    requires call.token == (if calls == [] then None else calls[|calls| - 1].page.next)
             && (calls != [] ==> call.token.Some?)
    requires before <= events && FromPage(call.page.items.value, calendar, events, |before|)
    requires events == AddFirsts(before, EventsOf(call.page.items.value, calendar), maxEvents)
    ensures ReadBy(fetch, calendar, maxEvents, start, calls + [call], events)
  {
    KeysGrow(before, events);
    InMoreCalls(calls, call, before, events, |start.events|);
    ChainGrows(fetch, calls, calendar, call);
    assert (calls + [call])[..|calls|] == calls;
    AddFirstsConcat(start.events, EventsRead(calls), EventsOf(call.page.items.value, calendar), maxEvents);
  }

  /** The pages of one calendar, at most `maxPages` of them. */
  method ReadCalendar(fetch: Fetch, calendar: string, calendars: seq<string>, maxEvents: nat, maxPages: nat,
                      start: Progress)
    returns (p: Progress, ending: Ending, ghost calls: seq<Call>)
    requires ProgressOk(start, calendars, maxEvents) && |start.events| < maxEvents && calendar in calendars
             && maxPages >= 1
    ensures !ending.Failed? ==>
              ProgressOk(p, calendars, maxEvents) && ReadBy(fetch, calendar, maxEvents, start, calls, p.events)
    ensures ending.Failed? ==> Fails(fetch, calendar, ending.fault)
    ensures Chain(fetch, calls, calendar) && |calls| <= maxPages
    ensures ending.Finished? ==> Followed(fetch, calls, calendar) && CallsKept(calls, p.seen) && |p.events| < maxEvents
    ensures ending.Full? ==>
              |p.events| == maxEvents && calls != [] && calls[|calls| - 1].page.next == ending.next
    ensures ending.OutOfPages? ==>
              |calls| == maxPages && calls[maxPages - 1].page.next == Some(ending.token) && CallsKept(calls, p.seen)
                                   && |p.events| < maxEvents
  {
    p, calls := start, [];
    var token: Option<string> := None;
    var page := 0;
    while page < maxPages
      invariant page <= maxPages && |calls| == page
      invariant ProgressOk(p, calendars, maxEvents) && |p.events| < maxEvents
      invariant ReadBy(fetch, calendar, maxEvents, start, calls, p.events) && CallsKept(calls, p.seen)
      invariant page == 0 ==> token == None
      invariant page > 0 ==> token.Some? && calls[page - 1].page.next == token
    {
      ghost var number := p.calls;
      var response := fetch(p.calls, calendar, token);
      p := p.(calls := p.calls + 1);
      assert forall fault :: FailsAt(response, fault) ==> Fails(fetch, calendar, fault);
      if response.Raised? { return p, Failed(TransportFailed), calls; }
      if response.value.items.None? { return p, Failed(MalformedResponse), calls; }
      var items := response.value.items.value;
      ghost var call := Call(number, calendar, token, response.value);
      ghost var before := p;
      var ok, full, events, seen, links := AddItems(items, calendar, calendars, maxEvents, p.events, p.seen, p.links);
      if !ok { return p, Failed(MalformedResponse), calls; }
      p := Progress(events, seen, links, p.calls);
      PageRead(fetch, calendar, maxEvents, start, calls, call, before.events, events);
      if full { return p, Full(response.value.next), calls + [call]; }
      KeysGrow(before.events, events);
      CallsKeptGrow(calls, before.seen, seen);
      CallAdded(calls, call, seen);
      calls := calls + [call];
      token := response.value.next;
      page := page + 1;
      if token.None? { return p, Finished, calls; }
    }
    return p, OutOfPages(token.value), calls;
  }

  lemma KeysGrow(a: seq<Event>, b: seq<Event>)
    requires a <= b
    ensures Keys(a) <= Keys(b)
  {
    forall k | k in Keys(a) ensures k in Keys(b) {
      var e :| e in a && KeyOf(e) == k;
      assert e in b;
    }
  }

  // -------------------------------------------------------------- the result

  predicate SortsBefore(a: Event, b: Event) {
    Before(a.marker, b.marker) || (a.marker == b.marker && Before(a.title, b.title))
  }

  function InsertSorted(e: Event, sorted: seq<Event>): seq<Event> {
    if sorted == [] || !SortsBefore(e, sorted[|sorted| - 1]) then sorted + [e]
    else InsertSorted(e, sorted[..|sorted| - 1]) + [sorted[|sorted| - 1]]
  }

  /** A stable sort by start text and title. */
  function Sorted(events: seq<Event>): seq<Event> {
    if events == [] then [] else InsertSorted(events[|events| - 1], Sorted(events[..|events| - 1]))
  }

  ghost predicate OrderedPair(events: seq<Event>, i: int, j: int) {
    0 <= i < j < |events| ==> !SortsBefore(events[j], events[i])
  }

  ghost predicate InOrder(events: seq<Event>) {
    forall i, j {:trigger OrderedPair(events, i, j)} :: OrderedPair(events, i, j)
  }

  lemma SortsBeforeTransitive(a: Event, b: Event, c: Event)
    requires !SortsBefore(b, a) && !SortsBefore(c, b)
    ensures !SortsBefore(c, a)
  {
    if SortsBefore(c, a) {
      BeforeTotal(a.marker, b.marker);
      BeforeTotal(b.marker, c.marker);
      BeforeTotal(a.title, b.title);
      BeforeTotal(b.title, c.title);
      NotBeforeItself(a.marker);
      NotBeforeItself(a.title);
      MarkersChain(a, b, c);
    }
  }

  lemma MarkersChain(a: Event, b: Event, c: Event)
    requires a.marker == b.marker || Before(a.marker, b.marker)
    requires b.marker == c.marker || Before(b.marker, c.marker)
    requires a.marker == b.marker ==> a.title == b.title || Before(a.title, b.title)
    requires b.marker == c.marker ==> b.title == c.title || Before(b.title, c.title)
    ensures !SortsBefore(c, a)
  {
    if Before(a.marker, b.marker) && Before(b.marker, c.marker) { BeforeTransitive(a.marker, b.marker, c.marker); }
    if Before(a.title, b.title) && Before(b.title, c.title) { BeforeTransitive(a.title, b.title, c.title); }
    NotBeforeItself(a.marker);
    NotBeforeItself(a.title);
    if Before(a.marker, c.marker) { BeforeAntisymmetric(a.marker, c.marker); }
    if Before(a.title, c.title) { BeforeAntisymmetric(a.title, c.title); }
  }

  ghost predicate NoneAfter(events: seq<Event>, e: Event) {
    forall i :: 0 <= i < |events| ==> !SortsBefore(e, events[i])
  }

  lemma {:induction false} InsertNoneAfter(e: Event, sorted: seq<Event>, last: Event)
    requires NoneAfter(sorted, last) && !SortsBefore(last, e)
    ensures NoneAfter(InsertSorted(e, sorted), last)
  {
    if sorted != [] && SortsBefore(e, sorted[|sorted| - 1]) { InsertNoneAfter(e, sorted[..|sorted| - 1], last); }
  }

  lemma SortsBeforeAntisymmetric(a: Event, b: Event)
    requires SortsBefore(a, b)
    ensures !SortsBefore(b, a)
  {
    NotBeforeItself(a.marker);
    if Before(a.marker, b.marker) {
      BeforeAntisymmetric(a.marker, b.marker);
    } else {
      BeforeAntisymmetric(a.title, b.title);
    }
  }

  lemma {:induction false} InsertSame(e: Event, sorted: seq<Event>)
    ensures multiset(InsertSorted(e, sorted)) == multiset(sorted) + multiset{e}
  {
    if sorted != [] && SortsBefore(e, sorted[|sorted| - 1]) {
      InsertSame(e, sorted[..|sorted| - 1]);
      assert sorted == sorted[..|sorted| - 1] + [sorted[|sorted| - 1]];
    }
  }

  lemma {:induction false} InsertInOrder(e: Event, sorted: seq<Event>)
    requires InOrder(sorted)
    ensures InOrder(InsertSorted(e, sorted))
  {
    var r := InsertSorted(e, sorted);
    if sorted == [] {
    } else {
      var n := |sorted| - 1;
      if SortsBefore(e, sorted[n]) {
        forall i, j ensures OrderedPair(sorted[..n], i, j) { assert OrderedPair(sorted, i, j); }
        InsertInOrder(e, sorted[..n]);
        forall i | 0 <= i < n ensures !SortsBefore(sorted[n], sorted[..n][i]) { assert OrderedPair(sorted, i, n); }
        SortsBeforeAntisymmetric(e, sorted[n]);
        InsertNoneAfter(e, sorted[..n], sorted[n]);
        var front := InsertSorted(e, sorted[..n]);
        forall i, j ensures OrderedPair(r, i, j) { assert OrderedPair(front, i, j); }
      } else {
        forall i, j ensures OrderedPair(r, i, j) {
          assert OrderedPair(sorted, i, j) && OrderedPair(sorted, i, n);
          if 0 <= i < n && j == |sorted| { SortsBeforeTransitive(sorted[i], sorted[n], e); }
        }
      }
    }
  }

  lemma {:induction false} SortedInOrder(events: seq<Event>)
    ensures InOrder(Sorted(events))
  {
    if events != [] {
      SortedInOrder(events[..|events| - 1]);
      InsertInOrder(events[|events| - 1], Sorted(events[..|events| - 1]));
    }
  }

  /** Sorting neither adds nor loses an event. */
  lemma {:induction false} SortedSame(events: seq<Event>)
    ensures multiset(Sorted(events)) == multiset(events)
  {
    if events != [] {
      var n := |events| - 1;
      SortedSame(events[..n]);
      InsertSame(events[n], Sorted(events[..n]));
      LastApart(events);
    }
  }

  /** Earlier starts first, and of one start the smaller title first. */
  lemma SortedByStart(events: seq<Event>, i: nat, j: nat)
    requires i < j < |events|
    ensures |Sorted(events)| == |events|
    ensures var (a, b) := (Sorted(events)[i], Sorted(events)[j]);
            Before(a.marker, b.marker) || (a.marker == b.marker && (a.title == b.title || Before(a.title, b.title)))
  {
    SortedSame(events);
    assert |Sorted(events)| == |multiset(Sorted(events))| == |events|;
    SortedInOrder(events);
    var (a, b) := (Sorted(events)[i], Sorted(events)[j]);
    assert OrderedPair(Sorted(events), i, j);
    BeforeTotal(a.marker, b.marker);
    BeforeTotal(a.title, b.title);
  }

  /** The events of one start and title, in the order they are in. */
  ghost function Ties(events: seq<Event>, marker: string, title: string): seq<Event> {
    if events == [] then []
    else
      var last := events[|events| - 1];
      Ties(events[..|events| - 1], marker, title) + if last.marker == marker && last.title == title then [last] else []
  }

  /** Ties stay in the order in which they were read. */
  lemma {:induction false} SortedStable(events: seq<Event>, marker: string, title: string)
    ensures Ties(Sorted(events), marker, title) == Ties(events, marker, title)
  {
    if events != [] {
      var n := |events| - 1;
      SortedStable(events[..n], marker, title);
      InsertStable(events[n], Sorted(events[..n]), marker, title);
    }
  }

  lemma {:induction false} InsertStable(e: Event, sorted: seq<Event>, marker: string, title: string)
    ensures Ties(InsertSorted(e, sorted), marker, title)
            == Ties(sorted, marker, title) + if e.marker == marker && e.title == title then [e] else []
  {
    if sorted != [] && SortsBefore(e, sorted[|sorted| - 1]) {
      InsertStable(e, sorted[..|sorted| - 1], marker, title);
      NotBeforeItself(marker);
      NotBeforeItself(title);
    }
  }

  lemma LastApart(events: seq<Event>)
    requires events != []
    ensures multiset(events) == multiset(events[..|events| - 1]) + multiset{events[|events| - 1]}
  {
    assert events == events[..|events| - 1] + [events[|events| - 1]];
  }

  lemma {:induction false} DistinctMeansOnce(events: seq<Event>)
    requires DistinctKeys(events)
    ensures forall e :: multiset(events)[e] <= 1
  {
    if events != [] {
      var n := |events| - 1;
      forall i, j ensures DistinctPair(events[..n], i, j) { assert DistinctPair(events, i, j); }
      DistinctMeansOnce(events[..n]);
      assert events == events[..n] + [events[n]];
      if events[n] in events[..n] {
        var i :| 0 <= i < n && events[..n][i] == events[n];
        assert DistinctPair(events, i, n);
      }
    }
  }

  /** The same events in another order: same keys, still distinct, same calendars. */
  lemma SameEvents(a: seq<Event>, b: seq<Event>, calendars: seq<string>)
    requires multiset(a) == multiset(b) && DistinctKeys(a) && FromCalendars(a, calendars)
    ensures DistinctKeys(b) && Keys(b) == Keys(a) && FromCalendars(b, calendars) && |b| == |a|
    ensures forall e :: e in b <==> e in a
  {
    assert |a| == |multiset(a)| == |b|;
    forall e ensures e in a <==> e in b { assert e in multiset(a) <==> e in multiset(b); }
    DistinctMeansOnce(a);
    forall i | 0 <= i < |b| ensures b[i].calendar in calendars {
      assert b[i] in a;
      var k :| 0 <= k < |a| && a[k] == b[i];
    }
    forall i, j ensures DistinctPair(b, i, j) {
      if 0 <= i < j < |b| && KeyOf(b[i]) == KeyOf(b[j]) {
        assert b[i] in a && b[j] in a;
        var x :| 0 <= x < |a| && a[x] == b[i];
        var y :| 0 <= y < |a| && a[y] == b[j];
        assert DistinctPair(a, x, y) && DistinctPair(a, y, x);
        TwiceCounted(b, i, j);
      }
    }
  }

  lemma TwiceCounted(s: seq<Event>, i: nat, j: nat)
    requires i < j < |s| && s[i] == s[j]
    ensures multiset(s)[s[i]] >= 2
  {
    assert s == s[..i] + [s[i]] + s[i + 1..j] + [s[j]] + s[j + 1..];
  }

  // ---------------------------------------------------------------- requests

  predicate Blank(s: string) {
    Strip(s) == ""
  }

  /** The requested calendars: blank ones dropped, each kept once, in order. */
  function UniqueCalendars(ids: seq<string>): (r: seq<string>)
    ensures forall c :: c in r <==> c in ids && Strip(c) != ""
  {
    if ids == [] then []
    else
      var last := ids[|ids| - 1];
      var rest := UniqueCalendars(ids[..|ids| - 1]);
      assert forall c :: c in ids <==> c in ids[..|ids| - 1] || c == last;
      if Blank(last) || last in rest then rest else rest + [last]
  }

  /** Each calendar asked for once, where it first comes. */
  lemma {:induction false} UniqueCalendarsInOrder(ids: seq<string>, n: nat)
    requires n <= |ids|
    ensures Distinct(UniqueCalendars(ids)) && UniqueCalendars(ids[..n]) <= UniqueCalendars(ids)
    decreases |ids|
  {
    if ids != [] {
      var k := |ids| - 1;
      UniqueCalendarsInOrder(ids[..k], if n <= k then n else k);
      if n <= k { assert ids[..k][..n] == ids[..n]; } else { assert ids[..n] == ids; }
    }
  }

  datatype Request = Request(configured: bool, rangeOk: bool, calendarIds: seq<string>, maxEvents: int, maxPages: int)

  predicate ValidRequest(r: Request) {
    && r.rangeOk && UniqueCalendars(r.calendarIds) != []
    && 1 <= r.maxEvents <= 500 && 1 <= r.maxPages <= 50
  }

  /** Every calendar up to `n` was followed to its last page, and what it held is kept. */
  ghost predicate CalendarDone(fetch: Fetch, calendars: seq<string>, chains: seq<seq<Call>>, keys: set<Key>, k: int) {
    0 <= k < |chains| && k < |calendars| ==> Followed(fetch, chains[k], calendars[k]) && CallsKept(chains[k], keys)
  }

  ghost predicate CalendarsDone(fetch: Fetch, calendars: seq<string>, chains: seq<seq<Call>>, keys: set<Key>) {
    forall k {:trigger CalendarDone(fetch, calendars, chains, keys, k)} ::
        CalendarDone(fetch, calendars, chains, keys, k)
  }

  lemma DoneGrows(fetch: Fetch, calendars: seq<string>, chains: seq<seq<Call>>, calls: seq<Call>, a: set<Key>,
                  b: set<Key>)
    requires CalendarsDone(fetch, calendars, chains, a) && a <= b && |chains| < |calendars|
    requires Followed(fetch, calls, calendars[|chains|]) && CallsKept(calls, b)
    ensures CalendarsDone(fetch, calendars, chains + [calls], b)
  {
    var more := chains + [calls];
    forall k ensures CalendarDone(fetch, calendars, more, b, k) {
      assert CalendarDone(fetch, calendars, chains, a, k);
      if 0 <= k < |chains| { CallsKeptGrow(chains[k], a, b); }
    }
  }

  /** Why the listing may be incomplete: the event bound was reached, or the last
      calendar read still had a next page after its last allowed one.  Reading can go on
      where the last page says. */
  ghost predicate CutShort(maxEvents: nat, maxPages: nat, events: nat, chains: seq<seq<Call>>,
                           continuation: Option<string>) {
    && chains != []
    && var last := chains[|chains| - 1];
    && last != [] && last[|last| - 1].page.next == continuation
    && (events == maxEvents || (|last| == maxPages && continuation.Some?))
  }

  method ReadCalendars(fetch: Fetch, calendars: seq<string>, maxEvents: nat, maxPages: nat)
    returns (p: Progress, truncated: bool, continuation: Option<string>, failed: Option<Fault>,
             ghost chains: seq<seq<Call>>)
    requires maxEvents >= 1 && maxPages >= 1
    ensures failed.Some? ==> exists c :: c in calendars && Fails(fetch, c, failed.value)
    ensures failed.None? ==>
              && p.events == AddFirsts([], AllRead(chains), maxEvents)
              && ProgressOk(p, calendars, maxEvents) && AllInChains(chains, p.events)
              && |chains| <= |calendars| && (forall k :: 0 <= k < |chains| ==> |chains[k]| <= maxPages)
              && (!truncated ==>
                    && |chains| == |calendars| && CalendarsDone(fetch, calendars, chains, p.seen)
                    && continuation.None? && |p.events| < maxEvents)
              && (truncated ==> CutShort(maxEvents, maxPages, |p.events|, chains, continuation))
  {
    p, truncated, continuation, failed, chains := Progress([], {}, [], 0), false, None, None, [];
    var c := 0;
    while c < |calendars|
      invariant c <= |calendars| && ProgressOk(p, calendars, maxEvents) && |p.events| < maxEvents
      invariant AllInChains(chains, p.events) && p.events == AddFirsts([], AllRead(chains), maxEvents)
      invariant continuation.None?
      invariant !truncated && failed.None? && |chains| == c && CalendarsDone(fetch, calendars, chains, p.seen)
      invariant forall k :: 0 <= k < |chains| ==> |chains[k]| <= maxPages
    {
      ghost var before := p;
      var ending;
      ghost var calls;
      p, ending, calls := ReadCalendar(fetch, calendars[c], calendars, maxEvents, maxPages, p);
      if !ending.Failed? {
        InMoreChains(chains, calls, before.events, p.events);
        assert (chains + [calls])[..|chains|] == chains;
        AddFirstsConcat([], AllRead(chains), EventsRead(calls), maxEvents);
      }
      match ending {
        case Failed(fault) => return p, false, None, Some(fault), chains;
        case Full(next) => return p, true, next, None, chains + [calls];
        case OutOfPages(token) => return p, true, Some(token), None, chains + [calls];
        case Finished => DoneGrows(fetch, calendars, chains, calls, before.seen, p.seen);
      }
      chains := chains + [calls];
      c := c + 1;
    }
  }

  /** The same links and events in another order. */
  lemma LinksOfSame(a: seq<Event>, b: seq<Event>, links: seq<string>)
    requires LinksOk(a, links) && forall e :: e in b <==> e in a
    ensures LinksOk(b, links)
  {
  }

  /** What the followed chains hold is represented, item by item. */
  lemma DoneMeansRepresented(fetch: Fetch, calendars: seq<string>, chains: seq<seq<Call>>, events: seq<Event>,
                             e: Event)
    requires |chains| == |calendars| && CalendarsDone(fetch, calendars, chains, Keys(events)) && InChains(chains, e)
    ensures Represented(events, e)
  {
    var k :| 0 <= k < |chains| && InCalls(chains[k], e);
    assert CalendarDone(fetch, calendars, chains, Keys(events), k);
    var i :| 0 <= i < |chains[k]| && chains[k][i].page.items.Some?
             && InItems(chains[k][i].page.items.value, chains[k][i].calendar, e);
    assert CallKept(chains[k], Keys(events), i);
    var items, calendar := chains[k][i].page.items.value, chains[k][i].calendar;
    var x :| 0 <= x < |items| && items[x].Item? && e == items[x].event.(calendar := calendar);
    assert Kept(items, calendar, Keys(events), x);
    InKeysRepresented(events, e);
  }

  /** List the events of all requested calendars: of what the pages hold, in order, the
      first of each occurrence, up to the bound, sorted.  No two agree in calendar, series
      and occurrence; and when the result is not marked as truncated it is complete: every
      calendar's chain of pages was followed to its end, and for every event on it one that
      agrees with it in these three is listed. */
  method ListEvents(fetch: Fetch, r: Request) returns (out: Outcome<Listing, Fault>, ghost chains: seq<seq<Call>>)
    ensures out == Raised(AccountNotConfigured) <==> !r.configured
    ensures out == Raised(InvalidRequest)
            <==> r.configured && !(r.rangeOk && (exists c :: c in r.calendarIds && Strip(c) != "")
                                   && 1 <= r.maxEvents <= 500 && 1 <= r.maxPages <= 50)
    ensures out.Raised? && out.error != InvalidRequest && r.configured ==>
              exists c :: c in UniqueCalendars(r.calendarIds) && Fails(fetch, c, out.error)
    ensures out.Ok? ==>
              && out.value.events == Sorted(AddFirsts([], AllRead(chains), r.maxEvents))
              && |out.value.events| <= r.maxEvents && NoTwoAlike(out.value.events) && InOrder(out.value.events)
              && LinksOk(out.value.events, out.value.links)
              && FromCalendars(out.value.events, UniqueCalendars(r.calendarIds))
              && AllInChains(chains, out.value.events)
              && |chains| <= |UniqueCalendars(r.calendarIds)|
              && (forall k :: 0 <= k < |chains| ==> |chains[k]| <= r.maxPages)
    ensures out.Ok? && !out.value.truncated ==>
              && |chains| == |UniqueCalendars(r.calendarIds)| && out.value.continuation.None?
              && (forall k :: 0 <= k < |chains| ==> Followed(fetch, chains[k], UniqueCalendars(r.calendarIds)[k]))
              && (forall e :: InChains(chains, e) ==> Represented(out.value.events, e))
    ensures out.Ok? && out.value.truncated ==>
              CutShort(r.maxEvents, r.maxPages, |out.value.events|, chains, out.value.continuation)
  {
    chains := [];
    if !r.configured { return Raised(AccountNotConfigured), chains; }
    var calendars := UniqueCalendars(r.calendarIds);
    assert calendars != [] <==> exists c :: c in r.calendarIds && Strip(c) != "" by {
      if calendars != [] { assert calendars[0] in calendars; }
    }
    if !ValidRequest(r) { return Raised(InvalidRequest), chains; }
    var p, truncated, continuation, failed;
    p, truncated, continuation, failed, chains := ReadCalendars(fetch, calendars, r.maxEvents, r.maxPages);
    if failed.Some? { return Raised(failed.value), chains; }
    SortedInOrder(p.events);
    SortedSame(p.events);
    SameEvents(p.events, Sorted(p.events), calendars);
    var events := Sorted(p.events);
    DistinctNotAlike(events);
    LinksOfSame(p.events, events, p.links);
    if !truncated {
      forall k | 0 <= k < |chains| ensures Followed(fetch, chains[k], calendars[k]) {
        assert CalendarDone(fetch, calendars, chains, Keys(events), k);
      }
      forall e | InChains(chains, e) ensures Represented(events, e) {
        DoneMeansRepresented(fetch, calendars, chains, events, e);
      }
    }
    return Ok(Listing(events, p.links, truncated, continuation)), chains;
  }

  /** So two occurrences of one series, or two calendars' events, are never taken for one:
      both are listed, each by its own event. */
  lemma BothListed(events: seq<Event>, a: Event, b: Event) returns (i: nat, j: nat)
    requires Represented(events, a) && Represented(events, b) && !SameOccurrence(a, b)
    ensures i < |events| && j < |events| && i != j
    ensures SameOccurrence(events[i], a) && SameOccurrence(events[j], b)
  {
    i :| 0 <= i < |events| && SameOccurrence(events[i], a);
    j :| 0 <= j < |events| && SameOccurrence(events[j], b);
  }
}
