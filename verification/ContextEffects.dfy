/** What normalising and updating a session's context does to each of its fields. */
module ContextEffects {
  import opened Collections
  import opened SessionContexts
  import opened Sessions
  import opened SessionEffects

  /** Blank text is no text; other text is kept without the space around it, if that is
      not longer than 512 characters. */
  lemma ScalarExactly(value: Option<string>)
    ensures Scalar(value).Raised? <==> value.Some? && |Strip(value.value)| > 512
    ensures Scalar(value).Ok? ==>
              Scalar(value).value == if value.None? || Strip(value.value) == "" then None else Some(Strip(value.value))
  {
  }

  ghost predicate Fits(value: string) {
    |Strip(value)| <= 512
  }

  /** The texts of a list that count. */
  ghost function Kept(values: seq<string>): set<string> {
    set k | 0 <= k < |values| && Strip(values[k]) != "" :: Strip(values[k])
  }

  lemma KeptGrows(values: seq<string>)
    requires values != []
    ensures var n := |values| - 1;
            Kept(values) == Kept(values[..n]) + if Strip(values[n]) == "" then {} else {Strip(values[n])}
  {
    var n := |values| - 1;
    assert forall k :: 0 <= k < n ==> values[..n][k] == values[k];
  }

  /** `list` has just the texts of `kept`, each once. */
  ghost predicate Lists(list: seq<string>, kept: set<string>) {
    Distinct(list) && forall s :: s in list <==> s in kept
  }

  lemma OneMore(list: seq<string>, kept: set<string>, x: string, bound: nat)
    requires Lists(list, kept) && |kept| <= bound
    ensures |list| == |kept|
    ensures x in list ==> kept + {x} == kept
    ensures x !in list ==> Lists(list + [x], kept + {x}) && |kept + {x}| == |kept| + 1
  {
    DistinctCardinality(list);
    assert (set s | s in list) == kept;
    if x !in list { DistinctAppend(list, x); }
  }

  ghost predicate AllFit(values: seq<string>) {
    forall k :: 0 <= k < |values| ==> Fits(values[k])
  }

  lemma AllFitGrows(values: seq<string>)
    requires values != []
    ensures AllFit(values) <==> AllFit(values[..|values| - 1]) && Fits(values[|values| - 1])
  {
    var n := |values| - 1;
    assert forall k :: 0 <= k < n ==> values[..n][k] == values[k];
  }

  /** A list keeps each text that counts once, and is refused when a text is too long or
      more than `bound` different ones count. */
  lemma {:induction false} CleanListIff(values: seq<string>, bound: nat)
    ensures CleanList(values, bound).Some? <==> AllFit(values) && |Kept(values)| <= bound
    ensures CleanList(values, bound).Some? ==> Lists(CleanList(values, bound).value, Kept(values))
  {
    if values == [] {
      assert Kept(values) == {};
    } else {
      var n := |values| - 1;
      CleanListIff(values[..n], bound);
      KeptGrows(values);
      AllFitGrows(values);
      SubsetSmaller(Kept(values[..n]), Kept(values));
      CleanListStep(values, bound, Kept(values[..n]), AllFit(values[..n]));
    }
  }

  /** One more text `x`, after those that gave `kept` and did or did not all fit. */
  lemma CleanListStep(values: seq<string>, bound: nat, kept: set<string>, fit: bool)
    requires values != []
    requires var rest := CleanList(values[..|values| - 1], bound);
             (rest.Some? <==> fit && |kept| <= bound) && (rest.Some? ==> Lists(rest.value, kept))
    ensures var x, list := Strip(values[|values| - 1]), CleanList(values, bound);
            var after := kept + if x == "" then {} else {x};
            && (list.Some? ==> fit && Fits(values[|values| - 1]) && |after| <= bound && Lists(list.value, after))
            && (fit && |kept| <= bound && Fits(values[|values| - 1]) && |after| <= bound ==> list.Some?)
  {
    var n := |values| - 1;
    var rest, x := CleanList(values[..n], bound), Strip(values[n]);
    if rest.Some? {
      if x == "" { assert kept + {} == kept; } else { OneMore(rest.value, kept, x, bound); }
    }
  }

  lemma {:induction false} SubsetSmaller<T>(a: set<T>, b: set<T>)
    requires a <= b
    ensures |a| <= |b|
  {
    assert b == a + (b - a) && a !! (b - a);
  }

  /** In the order in which they first come: a longer list only adds at the end. */
  lemma {:induction false} CleanListInOrder(values: seq<string>, bound: nat, n: nat)
    requires n <= |values| && CleanList(values, bound).Some?
    ensures CleanList(values[..n], bound).Some? && CleanList(values[..n], bound).value <= CleanList(values, bound).value
    decreases |values|
  {
    if n == |values| {
      assert values[..n] == values;
    } else {
      CleanListInOrder(values[..|values| - 1], bound, n);
      assert values[..|values| - 1][..n] == values[..n];
    }
  }

  /** The entry's account is one of those selected, and its calendars are a list that fits. */
  ghost predicate EntryFits(e: AccountCalendars, accounts: seq<string>) {
    && Fits(e.account) && Strip(e.account) != "" && Strip(e.account) in accounts
    && CleanList(e.calendars, 32).Some?
  }

  lemma {:induction false} CleanMapIff(entries: seq<AccountCalendars>, accounts: seq<string>)
    ensures CleanMap(entries, accounts).Some? <==> forall k :: 0 <= k < |entries| ==> EntryFits(entries[k], accounts)
    ensures CleanMap(entries, accounts).Some? ==>
              var r := CleanMap(entries, accounts).value;
              && |r| == |entries|
              && forall k :: 0 <= k < |r| ==>
                   r[k].account == Strip(entries[k].account)
                   && Some(r[k].calendars) == CleanList(entries[k].calendars, 32)
  {
    if entries != [] {
      var n := |entries| - 1;
      CleanMapIff(entries[..n], accounts);
      assert entries == entries[..n] + [entries[n]];
    }
  }

  /** When a context is refused: a text or list does not fit, the primary account is not
      among those selected, or calendars are given for an account that is not. */
  lemma NormalizeIff(c: SessionContext)
    ensures Normalize(c).Some? <==>
              && Scalar(c.accountId).Ok? && Scalar(c.projectId).Ok? && Scalar(c.timezone).Ok?
              && CleanList(c.calendarIds, 32).Some? && CleanList(c.accountIds, 8).Some?
              && var accounts := CleanList(c.accountIds, 8).value;
              && (accounts != [] && c.accountId.Some? && Strip(c.accountId.value) != "" ==>
                    Strip(c.accountId.value) in accounts)
              && CleanMap(c.byAccount, accounts).Some?
  {
  }

  /** Each field of the form kept comes from that field of the one given. */
  lemma NormalizeFields(c: SessionContext)
    requires Normalize(c).Some?
    ensures var n := Normalize(c).value;
            && Ok(n.accountId) == Scalar(c.accountId) && Ok(n.projectId) == Scalar(c.projectId)
            && Ok(n.timezone) == Scalar(c.timezone)
            && Some(n.calendarIds) == CleanList(c.calendarIds, 32) && Some(n.accountIds) == CleanList(c.accountIds, 8)
            && CleanMap(c.byAccount, n.accountIds).Some?
            && GivesPrimary(CleanMap(c.byAccount, n.accountIds).value, n)
  {
  }

  /** The calendars of each account as given; the primary account, when it is selected and
      has none of its own, gets the calendars selected without an account. */
  ghost predicate GivesPrimary(own: seq<AccountCalendars>, n: SessionContext) {
    if n.accountIds != [] && n.accountId.Some? && n.calendarIds != []
      && (forall k :: 0 <= k < |own| ==> own[k].account != n.accountId.value)
    then n.byAccount == own + [AccountCalendars(n.accountId.value, n.calendarIds)]
    else n.byAccount == own
  }

  /** A change replaces the fields it names and no other. */
  lemma ApplyExactly(changes: Changes, c: SessionContext)
    ensures var r := Apply(changes, c);
            && r.accountId == (match changes.accountId case Keep => c.accountId case Replace(v) => v)
            && r.projectId == (match changes.projectId case Keep => c.projectId case Replace(v) => v)
            && r.timezone == (match changes.timezone case Keep => c.timezone case Replace(v) => v)
            && r.calendarIds == (match changes.calendarIds case Keep => c.calendarIds case Replace(v) => v)
            && r.accountIds == (match changes.accountIds case Keep => c.accountIds case Replace(v) => v)
            && r.byAccount == (match changes.byAccount case Keep => c.byAccount case Replace(v) => v)
  {
  }

  /** An update stores the changed context's normal form in the session named, forgets the
      history when asked to, and touches nothing else. */
  lemma UpdateExactly(st: Store, id: Id, changes: Changes, clear: bool, now: int)
    ensures var (st', out) := UpdateContext(st, id, changes, clear, now);
            if id !in st.sessions then st' == st && out == Raised(UnknownSession)
            else if !st.sessions[id].active then st' == st && out == Raised(SessionClosed)
            else
              var (s, normal) := (st.sessions[id], Normalize(Apply(changes, st.sessions[id].context)));
              if normal.None? then st' == st && out == Raised(ContextRefused)
              else
                && out == Ok(()) && OnlySession(st, id, st')
                && st'.sessions[id].context == normal.value && st'.sessions[id].updatedAt == now
                && st'.sessions[id].history == (if clear then [] else s.history)
                && st'.sessions[id]
                   == s.(context := normal.value, history := st'.sessions[id].history, updatedAt := now)
  {
  }
}
