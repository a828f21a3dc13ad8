/** The selectable context of a session: which accounts, project, zone and calendars the
    conversation may use, in the one form that is ever stored. */
module SessionContexts {
  import opened Collections

  datatype AccountCalendars = AccountCalendars(account: string, calendars: seq<string>)

  datatype SessionContext = SessionContext(
    accountId: Option<string>,
    projectId: Option<string>,
    timezone: Option<string>,
    calendarIds: seq<string>,
    accountIds: seq<string>,
    byAccount: seq<AccountCalendars>)

  const NO_CONTEXT := SessionContext(None, None, None, [], [], [])

  const MAX_TEXT := 512
  const MAX_CALENDARS := 32
  const MAX_ACCOUNTS := 8

  /** Stripped; blank text is no text, and text that is too long is refused. */
  function Scalar(value: Option<string>): Outcome<Option<string>, ()> {
    if value.None? || Strip(value.value) == "" then Ok(None)
    else if |Strip(value.value)| > MAX_TEXT then Raised(())
    else Ok(Some(Strip(value.value)))
  }

  /** Stripped, without blanks and repetitions; `None` when one is too long or too many. */
  function CleanList(values: seq<string>, bound: nat): Option<seq<string>> {
    if values == [] then Some([])
    else
      var rest := CleanList(values[..|values| - 1], bound);
      var clean := Scalar(Some(values[|values| - 1]));
      if rest.None? || clean.Raised? then None
      else if clean.value.None? || clean.value.value in rest.value then rest
      else if |rest.value| >= bound then None
      else Some(rest.value + [clean.value.value])
  }

  function CleanMap(entries: seq<AccountCalendars>, accounts: seq<string>): Option<seq<AccountCalendars>> {
    if entries == [] then Some([])
    else
      var last := entries[|entries| - 1];
      var rest := CleanMap(entries[..|entries| - 1], accounts);
      var account := Scalar(Some(last.account));
      var calendars := CleanList(last.calendars, MAX_CALENDARS);
      if rest.None? || account.Raised? || account.value.None? || account.value.value !in accounts || calendars.None?
        then None
      else Some(rest.value + [AccountCalendars(account.value.value, calendars.value)])
  }

  predicate Covers(entries: seq<AccountCalendars>, account: string) {
    exists k :: 0 <= k < |entries| && entries[k].account == account
  }

  /** The calendars selected without an account go to the primary one. */
  function WithPrimary(entries: seq<AccountCalendars>, accounts: seq<string>, primary: Option<string>,
                       calendars: seq<string>): seq<AccountCalendars> {
    if accounts != [] && primary.Some? && calendars != [] && !Covers(entries, primary.value)
    then entries + [AccountCalendars(primary.value, calendars)] else entries
  }

  /** The form a context is stored in, or `None` when it is refused. */
  function Normalize(c: SessionContext): Option<SessionContext> {
    var calendars := CleanList(c.calendarIds, MAX_CALENDARS);
    var accounts := CleanList(c.accountIds, MAX_ACCOUNTS);
    var primary := Scalar(c.accountId);
    var project := Scalar(c.projectId);
    var zone := Scalar(c.timezone);
    if calendars.None? || accounts.None? || primary.Raised? || project.Raised? || zone.Raised? then None
    else if accounts.value != [] && primary.value.Some? && primary.value.value !in accounts.value then None
    else
      var entries := CleanMap(c.byAccount, accounts.value);
      if entries.None? then None
      else
        Some(SessionContext(primary.value, project.value, zone.value, calendars.value, accounts.value,
                     WithPrimary(entries.value, accounts.value, primary.value, calendars.value)))
  }

  /** A change to one field: left as it was, or given a new value. */
  datatype Change<T> = Keep | Replace(value: T)

  datatype Changes = Changes(
    accountId: Change<Option<string>>,
    projectId: Change<Option<string>>,
    timezone: Change<Option<string>>,
    calendarIds: Change<seq<string>>,
    accountIds: Change<seq<string>>,
    byAccount: Change<seq<AccountCalendars>>)

  function Pick<T>(change: Change<T>, current: T): T {
    if change.Keep? then current else change.value
  }

  function Apply(changes: Changes, c: SessionContext): SessionContext {
    SessionContext(Pick(changes.accountId, c.accountId), Pick(changes.projectId, c.projectId),
                   Pick(changes.timezone, c.timezone),
            Pick(changes.calendarIds, c.calendarIds), Pick(changes.accountIds, c.accountIds),
              Pick(changes.byAccount, c.byAccount))
  }

  // ---------------------------------------------------------- in-place form

  method CleanEach(values: seq<string>, bound: nat) returns (clean: Option<seq<string>>)
    ensures clean == CleanList(values, bound)
  {
    var kept: seq<string> := [];
    for i := 0 to |values|
      invariant CleanList(values[..i], bound) == Some(kept)
    {
      assert values[..i + 1][..i] == values[..i];
      var value := Scalar(Some(values[i]));
      if value.Raised? { RefusedStays(values, bound, i + 1); return None; }
      if value.value.Some? && value.value.value !in kept {
        if |kept| >= bound { RefusedStays(values, bound, i + 1); return None; }
        kept := kept + [value.value.value];
      }
    }
    assert values[..|values|] == values;
    return Some(kept);
  }

  lemma {:induction false} RefusedStays(values: seq<string>, bound: nat, n: nat)
    requires n <= |values| && CleanList(values[..n], bound).None?
    ensures CleanList(values, bound).None?
    decreases |values|
  {
    if n == |values| {
      assert values[..n] == values;
    } else {
      assert values[..|values| - 1][..n] == values[..n];
      RefusedStays(values[..|values| - 1], bound, n);
    }
  }

  method CleanEntries(entries: seq<AccountCalendars>, accounts: seq<string>)
    returns (clean: Option<seq<AccountCalendars>>)
    ensures clean == CleanMap(entries, accounts)
  {
    var kept: seq<AccountCalendars> := [];
    for i := 0 to |entries|
      invariant CleanMap(entries[..i], accounts) == Some(kept)
    {
      assert entries[..i + 1][..i] == entries[..i];
      var account := Scalar(Some(entries[i].account));
      if account.Raised? || account.value.None? || account.value.value !in accounts {
        RefusedEntries(entries, accounts, i + 1);
        return None;
      }
      var calendars := CleanEach(entries[i].calendars, MAX_CALENDARS);
      if calendars.None? { RefusedEntries(entries, accounts, i + 1); return None; }
      kept := kept + [AccountCalendars(account.value.value, calendars.value)];
    }
    assert entries[..|entries|] == entries;
    return Some(kept);
  }

  lemma {:induction false} RefusedEntries(entries: seq<AccountCalendars>, accounts: seq<string>, n: nat)
    requires n <= |entries| && CleanMap(entries[..n], accounts).None?
    ensures CleanMap(entries, accounts).None?
    decreases |entries|
  {
    if n == |entries| {
      assert entries[..n] == entries;
    } else {
      assert entries[..|entries| - 1][..n] == entries[..n];
      RefusedEntries(entries[..|entries| - 1], accounts, n);
    }
  }

  method NormalizeContext(c: SessionContext) returns (normal: Option<SessionContext>)
    ensures normal == Normalize(c)
  {
    var calendars := CleanEach(c.calendarIds, MAX_CALENDARS);
    if calendars.None? { return None; }
    var accounts := CleanEach(c.accountIds, MAX_ACCOUNTS);
    if accounts.None? { return None; }
    var primary := Scalar(c.accountId);
    if primary.Raised? { return None; }
    if accounts.value != [] && primary.value.Some? && primary.value.value !in accounts.value { return None; }
    var entries := CleanEntries(c.byAccount, accounts.value);
    if entries.None? { return None; }
    var project := Scalar(c.projectId);
    if project.Raised? { return None; }
    var zone := Scalar(c.timezone);
    if zone.Raised? { return None; }
    return Some(SessionContext(primary.value, project.value, zone.value, calendars.value, accounts.value,
                        WithPrimary(entries.value, accounts.value, primary.value, calendars.value)));
  }

  // ------------------------------------------------------------- properties

  predicate CleanText(s: string) {
    s != "" && |s| <= MAX_TEXT && !IsSpace(s[0]) && !IsSpace(s[|s| - 1])
  }

  predicate CleanOption(s: Option<string>) {
    s.Some? ==> CleanText(s.value)
  }

  ghost predicate CleanTexts(values: seq<string>, bound: nat) {
    |values| <= bound && Distinct(values) && forall k :: 0 <= k < |values| ==> CleanText(values[k])
  }

  predicate EntryAccount(entries: seq<AccountCalendars>, accounts: seq<string>, k: int) {
    0 <= k < |entries| ==> entries[k].account in accounts
  }

  ghost predicate EntryClean(entries: seq<AccountCalendars>, k: int) {
    0 <= k < |entries| ==> CleanTexts(entries[k].calendars, MAX_CALENDARS)
  }

  ghost predicate CleanEntriesOf(entries: seq<AccountCalendars>, accounts: seq<string>) {
    && (forall k {:trigger EntryAccount(entries, accounts, k)} :: EntryAccount(entries, accounts, k))
    && (forall k {:trigger EntryClean(entries, k)} :: EntryClean(entries, k))
  }

  /** What a stored context promises: clean texts, no repetitions, within the bounds, a
      primary account that is selected, calendars of selected accounts only, and the
      primary account among those with calendars when any are selected. */
  ghost predicate Normal(c: SessionContext) {
    && CleanOption(c.accountId) && CleanOption(c.projectId) && CleanOption(c.timezone)
    && CleanTexts(c.calendarIds, MAX_CALENDARS) && CleanTexts(c.accountIds, MAX_ACCOUNTS)
    && CleanEntriesOf(c.byAccount, c.accountIds)
    && (c.accountIds != [] && c.accountId.Some? ==> c.accountId.value in c.accountIds)
    && (c.accountIds != [] && c.accountId.Some? && c.calendarIds != [] ==> Covers(c.byAccount, c.accountId.value))
  }

  lemma CleanIsKept(s: string)
    requires CleanText(s)
    ensures Strip(s) == s
  {
    assert StripLeft(s) == s && StripRight(s) == s;
  }

  lemma ScalarClean(value: Option<string>)
    ensures Scalar(value).Ok? ==> CleanOption(Scalar(value).value)
    ensures CleanOption(value) ==> Scalar(value) == Ok(value)
  {
    if value.Some? && CleanText(value.value) { CleanIsKept(value.value); }
  }

  lemma {:induction false} ListClean(values: seq<string>, bound: nat)
    ensures CleanList(values, bound).Some? ==> CleanTexts(CleanList(values, bound).value, bound)
  {
    if values != [] {
      var n := |values| - 1;
      ListClean(values[..n], bound);
      ScalarClean(Some(values[n]));
      if CleanList(values, bound).Some? {
        var rest, clean := CleanList(values[..n], bound).value, Scalar(Some(values[n])).value;
        if clean.Some? && clean.value !in rest { DistinctAppend(rest, clean.value); }
      }
    }
  }

  lemma {:induction false} ListKept(values: seq<string>, bound: nat)
    requires CleanTexts(values, bound)
    ensures CleanList(values, bound) == Some(values)
  {
    if values != [] {
      var n := |values| - 1;
      assert values == values[..n] + [values[n]];
      ListKept(values[..n], bound);
      ScalarClean(Some(values[n]));
    }
  }

  lemma {:induction false} MapClean(entries: seq<AccountCalendars>, accounts: seq<string>)
    ensures CleanMap(entries, accounts).Some? ==> CleanEntriesOf(CleanMap(entries, accounts).value, accounts)
  {
    if entries != [] && CleanMap(entries, accounts).Some? {
      var n := |entries| - 1;
      MapClean(entries[..n], accounts);
      ListClean(entries[n].calendars, MAX_CALENDARS);
      var rest, all := CleanMap(entries[..n], accounts).value, CleanMap(entries, accounts).value;
      forall k ensures EntryAccount(all, accounts, k) { assert EntryAccount(rest, accounts, k); }
      forall k ensures EntryClean(all, k) { assert EntryClean(rest, k); }
    }
  }

  lemma {:induction false} MapKept(entries: seq<AccountCalendars>, accounts: seq<string>)
    requires CleanEntriesOf(entries, accounts) && forall k :: 0 <= k < |accounts| ==> CleanText(accounts[k])
    ensures CleanMap(entries, accounts) == Some(entries)
  {
    if entries != [] {
      var n := |entries| - 1;
      var front := entries[..n];
      assert entries == front + [entries[n]];
      forall k ensures EntryAccount(front, accounts, k) { assert EntryAccount(entries, accounts, k); }
      forall k ensures EntryClean(front, k) { assert EntryClean(entries, k); }
      MapKept(front, accounts);
      assert EntryAccount(entries, accounts, n) && EntryClean(entries, n);
      ListKept(entries[n].calendars, MAX_CALENDARS);
      ScalarClean(Some(entries[n].account));
    }
  }

  /** Whatever context is accepted, the form it is stored in is normal. */
  lemma NormalizeNormal(c: SessionContext)
    ensures Normalize(c).Some? ==> Normal(Normalize(c).value)
  {
    if Normalize(c).Some? {
      var n := Normalize(c).value;
      ScalarClean(c.accountId);
      ScalarClean(c.projectId);
      ScalarClean(c.timezone);
      ListClean(c.calendarIds, MAX_CALENDARS);
      ListClean(c.accountIds, MAX_ACCOUNTS);
      MapClean(c.byAccount, n.accountIds);
      WithPrimaryClean(CleanMap(c.byAccount, n.accountIds).value, n.accountIds, n.accountId, n.calendarIds);
    }
  }

  lemma WithPrimaryClean(entries: seq<AccountCalendars>, accounts: seq<string>, primary: Option<string>,
                         calendars: seq<string>)
    requires CleanEntriesOf(entries, accounts) && CleanTexts(calendars, MAX_CALENDARS)
    requires accounts != [] && primary.Some? ==> primary.value in accounts
    ensures var all := WithPrimary(entries, accounts, primary, calendars);
            && CleanEntriesOf(all, accounts)
            && (accounts != [] && primary.Some? && calendars != [] ==> Covers(all, primary.value))
  {
    var all := WithPrimary(entries, accounts, primary, calendars);
    forall k ensures EntryAccount(all, accounts, k) { assert EntryAccount(entries, accounts, k); }
    forall k ensures EntryClean(all, k) { assert EntryClean(entries, k); }
    if all != entries { assert all[|entries|].account == primary.value; }
  }

  /** A context is normal exactly when normalising leaves it as it is.  So normalising
      twice is normalising once, and an update that changes nothing is never refused. */
  lemma NormalIffFixed(c: SessionContext)
    ensures Normal(c) <==> Normalize(c) == Some(c)
  {
    NormalizeNormal(c);
    if Normal(c) {
      ScalarClean(c.accountId);
      ScalarClean(c.projectId);
      ScalarClean(c.timezone);
      ListKept(c.calendarIds, MAX_CALENDARS);
      ListKept(c.accountIds, MAX_ACCOUNTS);
      MapKept(c.byAccount, c.accountIds);
    }
  }

  lemma NoContextNormal()
    ensures Normal(NO_CONTEXT)
  {
  }
}
