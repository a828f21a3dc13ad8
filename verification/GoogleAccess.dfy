/** The selection boundary above the calendar adapter: what a broker lets be read, how a
    conversation's broker is narrowed, and the discovery of calendars page by page. */
module GoogleAccess {
  import opened Collections

  const CALENDAR_SCOPE := "https://www.googleapis.com/auth/calendar.readonly"

  /** `calendars` is `None` when every calendar of the account is granted. */
  datatype Grant = Grant(accountId: string, scopes: set<string>, calendars: Option<set<string>>)

  predicate Allows(g: Grant, scope: string, calendar: Option<string>) {
    scope in g.scopes && (calendar.None? || g.calendars.None? || calendar.value in g.calendars.value)
  }

  datatype Broker = Broker(transports: set<string>, grants: map<string, Grant>, selections: map<string, seq<string>>,
                           enforce: bool)

  datatype Denial = NotConfigured | PermissionDenied

  function Authorize(b: Broker, account: string, scope: string, calendar: Option<string>): Option<Denial> {
    if account !in b.transports || account !in b.grants then Some(NotConfigured)
    else if b.grants[account].accountId != account || !Allows(b.grants[account], scope, calendar)
      then Some(PermissionDenied)
    else None
  }

  function Selected(b: Broker, account: string): seq<string> {
    if account in b.selections then b.selections[account] else []
  }

  /** The guard of `calendar_events`: the adapter is only called when it answers `None`. */
  function EventsDenied(b: Broker, account: string, calendars: seq<string>): Option<Denial> {
    if b.enforce && exists k :: 0 <= k < |calendars| && calendars[k] !in Selected(b, account)
      then Some(PermissionDenied)
    else FirstDenied(b, account, calendars)
  }

  function FirstDenied(b: Broker, account: string, calendars: seq<string>): Option<Denial>
    decreases |calendars|
  {
    if calendars == [] then None
    else
      var denied := Authorize(b, account, CALENDAR_SCOPE, Some(calendars[0]));
      if denied.Some? then denied else FirstDenied(b, account, calendars[1..])
  }

  method CheckCalendars(b: Broker, account: string, calendars: seq<string>) returns (denied: Option<Denial>)
    ensures denied == EventsDenied(b, account, calendars)
  {
    if b.enforce {
      for k := 0 to |calendars|
        invariant forall i :: 0 <= i < k ==> calendars[i] in Selected(b, account)
      {
        if calendars[k] !in Selected(b, account) { return Some(PermissionDenied); }
      }
    }
    for k := 0 to |calendars|
      invariant FirstDenied(b, account, calendars) == FirstDenied(b, account, calendars[k..])
    {
      assert calendars[k..][1..] == calendars[k + 1..];
      denied := Authorize(b, account, CALENDAR_SCOPE, Some(calendars[k]));
      if denied.Some? { return denied; }
    }
    return None;
  }

  predicate Granted(b: Broker, account: string, calendar: string) {
    Authorize(b, account, CALENDAR_SCOPE, Some(calendar)).None?
  }

  /** May events of this calendar of this account be read through this broker? */
  predicate MayRead(b: Broker, account: string, calendar: string) {
    Granted(b, account, calendar) && (b.enforce ==> calendar in Selected(b, account))
  }

  /** Who may read what: a configured account, by a grant of its own that has the calendar
      scope and does not leave this calendar out, and, where selections count, only what was
      selected. */
  lemma MayReadExactly(b: Broker, account: string, calendar: string)
    ensures MayRead(b, account, calendar) <==>
              && account in b.transports && account in b.grants
              && var g := b.grants[account];
              && g.accountId == account && "https://www.googleapis.com/auth/calendar.readonly" in g.scopes
              && (g.calendars.Some? ==> calendar in g.calendars.value)
              && (b.enforce ==> account in b.selections && calendar in b.selections[account])
  {
  }

  /** Why not: what is not configured comes first, for the first calendar that is denied;
      but where selections count, one that was not selected is denied before any of it. */
  lemma {:induction false} DeniedExactly(b: Broker, account: string, calendars: seq<string>)
    requires EventsDenied(b, account, calendars).Some?
    ensures EventsDenied(b, account, calendars) == Some(NotConfigured)
            <==> (account !in b.transports || account !in b.grants)
                 && (b.enforce ==> forall k :: 0 <= k < |calendars| ==> calendars[k] in Selected(b, account))
  {
    FirstDeniedWhy(b, account, calendars);
  }

  lemma {:induction false} FirstDeniedWhy(b: Broker, account: string, calendars: seq<string>)
    ensures FirstDenied(b, account, calendars).Some? ==>
              (FirstDenied(b, account, calendars) == Some(NotConfigured)
               <==> account !in b.transports || account !in b.grants)
    ensures calendars != [] && (account !in b.transports || account !in b.grants) ==>
              FirstDenied(b, account, calendars).Some?
    decreases |calendars|
  {
    if calendars != [] { FirstDeniedWhy(b, account, calendars[1..]); }
  }

  /** A listing passes the guard exactly when each calendar it names may be read. */
  lemma {:induction false} GuardExactly(b: Broker, account: string, calendars: seq<string>)
    ensures EventsDenied(b, account, calendars).None?
            <==> forall k :: 0 <= k < |calendars| ==> MayRead(b, account, calendars[k])
  {
    FirstDeniedExactly(b, account, calendars);
  }

  lemma {:induction false} FirstDeniedExactly(b: Broker, account: string, calendars: seq<string>)
    ensures FirstDenied(b, account, calendars).None?
            <==> forall k :: 0 <= k < |calendars| ==> Granted(b, account, calendars[k])
    decreases |calendars|
  {
    if calendars != [] {
      FirstDeniedExactly(b, account, calendars[1..]);
      assert forall k :: 0 < k < |calendars| ==> calendars[k] == calendars[1..][k - 1];
    }
  }

  // -------------------------------------------------------------- narrowing

  /** What is asked for, blanks dropped, each once and where it first comes. */
  function UniqueNonEmpty(ids: seq<string>): (r: seq<string>)
    ensures forall c :: c in r <==> c in ids && c != ""
    ensures Distinct(r)
  {
    if ids == [] then []
    else
      var last := ids[|ids| - 1];
      var rest := UniqueNonEmpty(ids[..|ids| - 1]);
      assert forall c :: c in ids <==> c in ids[..|ids| - 1] || c == last;
      if last == "" || last in rest then rest else rest + [last]
  }

  lemma {:induction false} UniqueInOrder(ids: seq<string>, n: nat)
    requires n <= |ids|
    ensures UniqueNonEmpty(ids[..n]) <= UniqueNonEmpty(ids)
    decreases |ids|
  {
    if ids != [] {
      var k := |ids| - 1;
      UniqueInOrder(ids[..k], if n <= k then n else k);
      if n <= k { assert ids[..k][..n] == ids[..n]; } else { assert ids[..n] == ids; }
    }
  }

  function CalendarsFor(calendars: map<string, seq<string>>, account: string): seq<string> {
    if account in calendars then calendars[account] else []
  }

  function RestrictTo(b: Broker, accounts: set<string>, calendars: map<string, seq<string>>): Broker {
    Broker(set a | a in b.transports && a in accounts,
           map a | a in b.grants && a in accounts :: b.grants[a],
           map a | a in accounts :: UniqueNonEmpty(CalendarsFor(calendars, a)),
           true)
  }

  /** The narrowed broker reads exactly the calendars asked for, of the accounts asked
      for, that the original was granted. */
  lemma RestrictedExactly(b: Broker, accounts: set<string>, calendars: map<string, seq<string>>, account: string,
                          calendar: string)
    ensures MayRead(RestrictTo(b, accounts, calendars), account, calendar)
            <==> account in accounts && calendar != "" && calendar in CalendarsFor(calendars, account)
                 && Granted(b, account, calendar)
  {
  }

  ghost predicate Narrower(a: Broker, b: Broker) {
    forall account, calendar {:trigger MayRead(a, account, calendar)} ::
        MayRead(a, account, calendar) ==> MayRead(b, account, calendar)
  }

  /** It never reads what was not granted; but it takes its own selection as given, so it
      reads no more than the original exactly when what is asked for was also selected
      there, or the original enforced no selection. */
  lemma RestrictNarrowsIff(b: Broker, accounts: set<string>, calendars: map<string, seq<string>>)
    ensures Narrower(RestrictTo(b, accounts, calendars), b)
            <==> (b.enforce ==>
                    forall a, c ::
                        a in accounts && c in CalendarsFor(calendars, a) && c != "" && Granted(b, a, c) ==>
                            c in Selected(b, a))
  {
    var r := RestrictTo(b, accounts, calendars);
    forall a, c ensures MayRead(r, a, c)
                        <==> a in accounts && c != "" && c in CalendarsFor(calendars, a) && Granted(b, a, c)
    {
      RestrictedExactly(b, accounts, calendars, a, c);
    }
    if b.enforce {
      if a, c :|
          a in accounts && c in CalendarsFor(calendars, a) && c != "" && Granted(b, a, c) && c !in Selected(b, a) {
        assert MayRead(r, a, c) && !MayRead(b, a, c);
      }
    }
  }

  /** An enforcing broker that is granted two calendars of an account and selects one. */
  function OneOfTwoSelected(account: string, selected: string, other: string): Broker {
    Broker({account}, map[account := Grant(account, {CALENDAR_SCOPE}, Some({selected, other}))],
           map[account := [selected]], true)
  }

  /** A case that occurs: such a broker, restricted to the other calendar, reads what it
      could not read before. */
  lemma RestrictionWidens(account: string, selected: string, other: string)
    requires selected != other && other != ""
    ensures var b := OneOfTwoSelected(account, selected, other);
            var r := RestrictTo(b, {account}, map[account := [other]]);
            && !MayRead(b, account, other) && MayRead(r, account, other)
            && EventsDenied(b, account, [other]) == Some(PermissionDenied) && EventsDenied(r, account, [other]).None?
            && !Narrower(r, b)
  {
    var b := OneOfTwoSelected(account, selected, other);
    RestrictedExactly(b, {account}, map[account := [other]], account, other);
    GuardExactly(RestrictTo(b, {account}, map[account := [other]]), account, [other]);
    assert [other][0] !in Selected(b, account);
  }

  // -------------------------------------------------------------- discovery

  /** An entry of a page: without a usable id, or a calendar. */
  datatype Entry = NoId | Calendar(id: string)

  datatype Page = Page(items: Option<seq<Entry>>, next: Option<string>)

  /** The transport, asked with a token and a page size. */
  type Fetch = (nat, Option<string>, nat) -> Outcome<Page, ()>

  datatype Call = Call(number: nat, token: Option<string>, size: nat, page: Page)

  datatype Fault = Denied(denial: Denial) | InvalidBounds | ReadFailed

  datatype Found = Found(calendars: seq<string>, truncated: bool, next: Option<string>)

  predicate Visible(g: Grant, id: string) {
    Allows(g, CALENDAR_SCOPE, Some(id))
  }

  ghost predicate Shown(g: Grant, items: seq<Entry>, found: set<string>, i: int) {
    0 <= i < |items| && items[i].Calendar? && Visible(g, items[i].id) ==> items[i].id in found
  }

  ghost predicate AllShown(g: Grant, items: seq<Entry>, found: set<string>) {
    forall i {:trigger Shown(g, items, found, i)} :: Shown(g, items, found, i)
  }

  ghost predicate CallShown(g: Grant, calls: seq<Call>, found: set<string>, i: int) {
    0 <= i < |calls| && calls[i].page.items.Some? ==> AllShown(g, calls[i].page.items.value, found)
  }

  ghost predicate CallsShown(g: Grant, calls: seq<Call>, found: set<string>) {
    forall i {:trigger CallShown(g, calls, found, i)} :: CallShown(g, calls, found, i)
  }

  lemma CallsShownGrow(g: Grant, calls: seq<Call>, call: Call, a: set<string>, b: set<string>)
    requires CallsShown(g, calls, a) && a <= b && (call.page.items.Some? ==> AllShown(g, call.page.items.value, b))
    ensures CallsShown(g, calls + [call], b)
  {
    var more := calls + [call];
    forall i ensures CallShown(g, more, b, i) {
      assert CallShown(g, calls, a, i);
      if 0 <= i < |calls| && calls[i].page.items.Some? {
        var items := calls[i].page.items.value;
        forall k ensures Shown(g, items, b, k) { assert Shown(g, items, a, k); }
      }
    }
  }

  /** The ids on a page, in order. */
  ghost function IdsOf(items: seq<Entry>): seq<string> {
    if items == [] then []
    else
      var last := items[|items| - 1];
      IdsOf(items[..|items| - 1]) + if last.Calendar? then [last.id] else []
  }

  ghost function IdsRead(calls: seq<Call>): seq<string> {
    if calls == [] then []
    else
      var last := calls[|calls| - 1];
      IdsRead(calls[..|calls| - 1]) + if last.page.items.Some? then IdsOf(last.page.items.value) else []
  }

  /** Each granted one of these where it first comes, until there are `max`. */
  ghost function AddGranted(g: Grant, found: seq<string>, ids: seq<string>, max: nat): seq<string> {
    if ids == [] then found
    else
      var before := AddGranted(g, found, ids[..|ids| - 1], max);
      var id := ids[|ids| - 1];
      if |before| >= max || id in before || !Visible(g, id) then before else before + [id]
  }

  lemma {:induction false} AddGrantedConcat(g: Grant, found: seq<string>, a: seq<string>, b: seq<string>, max: nat)
    ensures AddGranted(g, found, a + b, max) == AddGranted(g, AddGranted(g, found, a, max), b, max)
    decreases |b|
  {
    if b == [] {
      assert a + b == a;
    } else {
      assert (a + b)[..|a + b| - 1] == a + b[..|b| - 1];
      AddGrantedConcat(g, found, a, b[..|b| - 1], max);
    }
  }

  lemma {:induction false} FullStays(g: Grant, found: seq<string>, ids: seq<string>, max: nat)
    requires |found| >= max
    ensures AddGranted(g, found, ids, max) == found
    decreases |ids|
  {
    if ids != [] { FullStays(g, found, ids[..|ids| - 1], max); }
  }

  lemma {:induction false} IdsOfConcat(items: seq<Entry>, n: nat)
    requires n <= |items|
    ensures IdsOf(items) == IdsOf(items[..n]) + IdsOf(items[n..])
    decreases |items|
  {
    if n == |items| {
      assert items[..n] == items && items[n..] == [];
    } else {
      var k := |items| - 1;
      IdsOfConcat(items[..k], n);
      assert items[..k][..n] == items[..n] && items[..k][n..] == items[n..][..|items[n..]| - 1];
    }
  }

  lemma AddNextEntry(g: Grant, found0: seq<string>, items: seq<Entry>, n: nat, max: nat)
    requires n < |items|
    ensures var before := AddGranted(g, found0, IdsOf(items[..n]), max);
            AddGranted(g, found0, IdsOf(items[..n + 1]), max)
            == if items[n].NoId? || |before| >= max || items[n].id in before || !Visible(g, items[n].id) then before
              else before + [items[n].id]
  {
    assert items[..n + 1][..n] == items[..n];
    var ids := IdsOf(items[..n]);
    if items[n].Calendar? {
      AddGrantedConcat(g, found0, ids, [items[n].id], max);
      assert [items[n].id][..0] == [];
      assert AddGranted(g, AddGranted(g, found0, ids, max), [], max) == AddGranted(g, found0, ids, max);
    } else {
      assert ids + [] == ids;
    }
  }

  lemma FullTakesNoMore(g: Grant, found0: seq<string>, items: seq<Entry>, n: nat, found: seq<string>, max: nat)
    requires n <= |items| && found == AddGranted(g, found0, IdsOf(items[..n]), max) && |found| >= max
    ensures found == AddGranted(g, found0, IdsOf(items), max)
  {
    IdsOfConcat(items, n);
    AddGrantedConcat(g, found0, IdsOf(items[..n]), IdsOf(items[n..]), max);
    FullStays(g, found, IdsOf(items[n..]), max);
  }

  /** Each page asked for: for as many calendars as are still wanted, at most 250, and with
      the token of the page before. */
  ghost predicate Linked(fetch: Fetch, g: Grant, max: nat, calls: seq<Call>, i: int) {
    0 <= i < |calls| ==>
      && calls[i].size == Min(250, max - |AddGranted(g, [], IdsRead(calls[..i]), max)|) && 1 <= calls[i].size <= 250
      && fetch(calls[i].number, calls[i].token, calls[i].size) == Ok(calls[i].page) && calls[i].page.items.Some?
      && calls[i].token == (if i == 0 then None else calls[i - 1].page.next)
      && (i > 0 ==> calls[i].token.Some? && calls[i].token.value != "")
  }

  ghost predicate Chain(fetch: Fetch, g: Grant, max: nat, calls: seq<Call>) {
    forall i {:trigger Linked(fetch, g, max, calls, i)} :: Linked(fetch, g, max, calls, i)
  }

  lemma ChainGrows(fetch: Fetch, g: Grant, max: nat, calls: seq<Call>, call: Call)
    requires Chain(fetch, g, max, calls) && 1 <= call.size <= 250
             && call.size == Min(250, max - |AddGranted(g, [], IdsRead(calls), max)|)
             && fetch(call.number, call.token, call.size) == Ok(call.page) && call.page.items.Some?
    requires call.token == (if calls == [] then None else calls[|calls| - 1].page.next)
    requires calls != [] ==> call.token.Some? && call.token.value != ""
    ensures Chain(fetch, g, max, calls + [call])
  {
    var more := calls + [call];
    forall i ensures Linked(fetch, g, max, more, i) {
      assert Linked(fetch, g, max, calls, i);
      if 0 <= i < |more| { assert more[..i] == calls[..i]; }
      assert calls[..|calls|] == calls;
    }
  }

  ghost predicate FoundOk(g: Grant, found: seq<string>, seen: set<string>) {
    && Distinct(found) && seen == (set c | c in found)
    && forall i :: 0 <= i < |found| ==> Visible(g, found[i])
  }

  ghost predicate ShownUpTo(g: Grant, items: seq<Entry>, seen: set<string>, n: nat) {
    forall k {:trigger Shown(g, items, seen, k)} :: k < n ==> Shown(g, items, seen, k)
  }

  /** The first `n` entries of a page have been taken in. */
  ghost predicate Taken(g: Grant, items: seq<Entry>, max: nat, found0: seq<string>, n: nat, found: seq<string>,
                        seen: set<string>)
    requires n <= |items|
  {
    && found0 <= found && FoundOk(g, found, seen) && ShownUpTo(g, items, seen, n)
    && found == AddGranted(g, found0, IdsOf(items[..n]), max)
  }

  lemma SkipEntry(g: Grant, items: seq<Entry>, max: nat, found0: seq<string>, n: nat, found: seq<string>,
                  seen: set<string>)
    requires n < |items| && Taken(g, items, max, found0, n, found, seen)
    requires items[n].NoId? || items[n].id in seen || !Visible(g, items[n].id)
    ensures Taken(g, items, max, found0, n + 1, found, seen)
  {
    AddNextEntry(g, found0, items, n, max);
  }

  lemma NewEntry(g: Grant, items: seq<Entry>, max: nat, found0: seq<string>, n: nat, found: seq<string>,
                 seen: set<string>)
    requires n < |items| && Taken(g, items, max, found0, n, found, seen) && |found| < max
    requires items[n].Calendar? && items[n].id !in seen && Visible(g, items[n].id)
    ensures Taken(g, items, max, found0, n + 1, found + [items[n].id], seen + {items[n].id})
  {
    AddNextEntry(g, found0, items, n, max);
    FoundOneMore(g, found, seen, items[n].id);
    forall k | k < n + 1 ensures Shown(g, items, seen + {items[n].id}, k) {
      assert k < n ==> Shown(g, items, seen, k);
    }
  }

  lemma FoundOneMore(g: Grant, found: seq<string>, seen: set<string>, id: string)
    requires FoundOk(g, found, seen) && id !in seen && Visible(g, id)
    ensures FoundOk(g, found + [id], seen + {id})
  {
    DistinctAppend(found, id);
  }

  method AddCalendars(g: Grant, items: seq<Entry>, max: nat, found0: seq<string>, seen0: set<string>)
    returns (found: seq<string>, seen: set<string>, full: bool)
    requires |found0| < max && FoundOk(g, found0, seen0)
    ensures FoundOk(g, found, seen) && |found| <= max && found0 <= found
    ensures found == AddGranted(g, found0, IdsOf(items), max)
    ensures full ==> |found| == max
    ensures !full ==> |found| < max && AllShown(g, items, seen)
  {
    found, seen, full := found0, seen0, false;
    assert items[..0] == [];
    for i := 0 to |items|
      invariant |found| < max && !full && Taken(g, items, max, found0, i, found, seen)
    {
      if items[i].NoId? || items[i].id in seen || !Visible(g, items[i].id) {
        SkipEntry(g, items, max, found0, i, found, seen);
        continue;
      }
      NewEntry(g, items, max, found0, i, found, seen);
      found := found + [items[i].id];
      seen := seen + {items[i].id};
      if |found| >= max {
        FullTakesNoMore(g, found0, items, i + 1, found, max);
        return found, seen, true;
      }
    }
    assert items[..|items|] == items;
    forall k ensures Shown(g, items, seen, k) {}
  }

  lemma SeenGrows(g: Grant, a: seq<string>, seenA: set<string>, b: seq<string>, seenB: set<string>)
    requires FoundOk(g, a, seenA) && FoundOk(g, b, seenB) && a <= b
    ensures seenA <= seenB
  {
    forall c | c in seenA ensures c in seenB { assert c in a && c in b; }
  }

  predicate More(next: Option<string>) {
    next.Some? && next.value != ""
  }

  /** Discover the calendars of an account: the granted ones the pages hold, each where it
      first comes, up to the bound.  The page size sent stays between 1 and 250; when the
      result is not marked as truncated, the chain of pages was followed to its end and
      every granted calendar on it is in the result; otherwise it says where to go on. */
  method ListCalendars(b: Broker, fetch: Fetch, account: string, maxCalendars: int, maxPages: int)
    returns (out: Outcome<Found, Fault>, ghost calls: seq<Call>)
    ensures (exists d :: out == Raised(Denied(d))) <==> Authorize(b, account, CALENDAR_SCOPE, None).Some?
    ensures out == Raised(InvalidBounds) <==>
              Authorize(b, account, CALENDAR_SCOPE, None).None? && !(1 <= maxCalendars <= 250 && 1 <= maxPages <= 50)
    ensures calls != [] ==>
              account in b.grants && maxCalendars > 0 && Chain(fetch, b.grants[account], maxCalendars, calls)
    ensures |calls| <= (if maxPages > 0 then maxPages else 0)
    ensures out == Raised(ReadFailed) ==>
              exists n, token, size ::
                fetch(n, token, size).Raised? || fetch(n, token, size).value.items.None?
    ensures out.Ok? ==>
              && account in b.grants && maxCalendars > 0
              && out.value.calendars == AddGranted(b.grants[account], [], IdsRead(calls), maxCalendars)
              && |out.value.calendars| <= maxCalendars && Distinct(out.value.calendars)
              && forall i :: 0 <= i < |out.value.calendars| ==> Visible(b.grants[account], out.value.calendars[i])
    ensures out.Ok? && !out.value.truncated ==>
              && calls != [] && out.value.next.None?
              && (calls[|calls| - 1].page.next.None? || calls[|calls| - 1].page.next.value == "")
              && CallsShown(b.grants[account], calls, set c | c in out.value.calendars)
    ensures out.Ok? && out.value.truncated ==>
              && calls != [] && calls[|calls| - 1].page.next == out.value.next
              && (|out.value.calendars| == maxCalendars
                  || (|calls| == maxPages && out.value.next.Some? && out.value.next.value != ""))
  {
    calls := [];
    var denied := Authorize(b, account, CALENDAR_SCOPE, None);
    if denied.Some? { return Raised(Denied(denied.value)), calls; }
    if !(1 <= maxCalendars <= 250 && 1 <= maxPages <= 50) { return Raised(InvalidBounds), calls; }
    var g := b.grants[account];
    var found: seq<string>, seen: set<string>, token: Option<string>, page := [], {}, None, 0;
    while page < maxPages
      invariant page <= maxPages && |calls| == page && |found| < maxCalendars && FoundOk(g, found, seen)
      invariant Chain(fetch, g, maxCalendars, calls) && CallsShown(g, calls, seen)
      invariant found == AddGranted(g, [], IdsRead(calls), maxCalendars)
      invariant page == 0 ==> token == None
      invariant page > 0 ==> More(token) && calls[page - 1].page.next == token
    {
      var size := Min(250, maxCalendars - |found|);
      var response := fetch(page, token, size);
      if response.Raised? || response.value.items.None? { return Raised(ReadFailed), calls; }
      ghost var call, before, foundBefore := Call(page, token, size, response.value), seen, found;
      ChainGrows(fetch, g, maxCalendars, calls, call);
      assert (calls + [call])[..|calls|] == calls;
      AddGrantedConcat(g, [], IdsRead(calls), IdsOf(response.value.items.value), maxCalendars);
      var full;
      found, seen, full := AddCalendars(g, response.value.items.value, maxCalendars, found, seen);
      SeenGrows(g, foundBefore, before, found, seen);
      token := response.value.next;
      if full { return Ok(Found(found, true, token)), calls + [call]; }
      CallsShownGrow(g, calls, call, before, seen);
      calls := calls + [call];
      page := page + 1;
      if !More(token) { return Ok(Found(found, false, None)), calls; }
    }
    return Ok(Found(found, true, token)), calls;
  }
}
