/** Which answer the resolver gives, told by what the message says of which account: the
    mentions outside and inside exclusions, the accounts there are, and the request. */
module AccountRoutingAnswers {
  import opened Collections
  import opened AccountRouting
  import opened AccountRoutingProofs
  import opened AccountRoutingTheorems

  /** Some mention in the scope of an exclusion is of this account. */
  ghost predicate Barred(tokens: seq<Token>, ms: seq<Mention>, id: string) {
    exists p: Profile :: ExcludedBy(tokens, ms, p) && p.accountId == id
  }

  /** A mention outside every exclusion stands for this profile alone. */
  ghost predicate Named(tokens: seq<Token>, ms: seq<Mention>, p: Profile) {
    SelectedBy(tokens, ms, p) && !Barred(tokens, ms, p.accountId)
  }

  /** A mention outside every exclusion could mean this profile or another. */
  ghost predicate Unclear(tokens: seq<Token>, ms: seq<Mention>, p: Profile) {
    SharedIn(tokens, ms, p) && !Barred(tokens, ms, p.accountId)
  }

  ghost predicate AnyNamed(tokens: seq<Token>, ms: seq<Mention>) {
    exists p :: Named(tokens, ms, p)
  }

  ghost predicate AnyUnclear(tokens: seq<Token>, ms: seq<Mention>) {
    exists p :: Unclear(tokens, ms, p)
  }

  /** Profile `i` of those there are is not barred. */
  ghost predicate LeftAt(tokens: seq<Token>, ms: seq<Mention>, available: seq<Profile>, i: int) {
    0 <= i < |available| && !Barred(tokens, ms, available[i].accountId)
  }

  /** The only profile left is the `i`-th. */
  ghost predicate OnlyLeft(tokens: seq<Token>, ms: seq<Mention>, available: seq<Profile>, i: int) {
    LeftAt(tokens, ms, available, i) && forall j :: LeftAt(tokens, ms, available, j) ==> j == i
  }

  /** `list` is made of the profiles left, in the order they are in. */
  ghost predicate AllLeft(tokens: seq<Token>, ms: seq<Mention>, available: seq<Profile>, list: seq<Profile>,
                          idx: seq<nat>) {
    && |idx| == |list|
    && (forall x :: 0 <= x < |idx| ==> idx[x] < |available| && list[x] == available[idx[x]])
    && (forall x, y :: 0 <= x < y < |idx| ==> idx[x] < idx[y])
    && (forall i :: 0 <= i < |available| ==> (i in idx <==> LeftAt(tokens, ms, available, i)))
  }

  lemma BarredIff(tokens: seq<Token>, ms: seq<Mention>, id: string)
    ensures HasAccount(Classify(tokens, SortByStart(ms)).excluded, id) <==> Barred(tokens, ms, id)
  {
    var excluded := Classify(tokens, SortByStart(ms)).excluded;
    if k :| 0 <= k < |excluded| && excluded[k].accountId == id {
      SidesExactly(tokens, ms, excluded[k]);
    }
    if p: Profile :| ExcludedBy(tokens, ms, p) && p.accountId == id {
      SidesExactly(tokens, ms, p);
      var k :| 0 <= k < |excluded| && excluded[k] == p;
    }
  }

  /** The three lists the answer is made from. */
  lemma ListsHold(tokens: seq<Token>, ms: seq<Mention>, p: Profile)
    ensures var s := Classify(tokens, SortByStart(ms));
            && (p in Outside(s.selected, s.excluded) <==> Named(tokens, ms, p))
            && (p in Outside(s.ambiguous, s.excluded) <==> Unclear(tokens, ms, p))
  {
    var s := Classify(tokens, SortByStart(ms));
    SidesExactly(tokens, ms, p);
    OutsideHolds(s.selected, s.excluded, p);
    OutsideHolds(s.ambiguous, s.excluded, p);
    BarredIff(tokens, ms, p.accountId);
  }

  lemma NonEmptyIff(tokens: seq<Token>, ms: seq<Mention>)
    ensures var s := Classify(tokens, SortByStart(ms));
            && (Outside(s.selected, s.excluded) != [] <==> AnyNamed(tokens, ms))
            && (Outside(s.ambiguous, s.excluded) != [] <==> AnyUnclear(tokens, ms))
  {
    var s := Classify(tokens, SortByStart(ms));
    var selected, ambiguous := Outside(s.selected, s.excluded), Outside(s.ambiguous, s.excluded);
    if selected != [] { ListsHold(tokens, ms, selected[0]); }
    if ambiguous != [] { ListsHold(tokens, ms, ambiguous[0]); }
    if p :| Named(tokens, ms, p) { ListsHold(tokens, ms, p); }
    if p :| Unclear(tokens, ms, p) { ListsHold(tokens, ms, p); }
  }

  /** Where the profiles outside the excluded accounts stand. */
  ghost function PlacesOutside(profiles: seq<Profile>, excluded: seq<Profile>): (idx: seq<nat>)
    ensures |idx| == |Outside(profiles, excluded)|
  {
    if profiles == [] then []
    else
      PlacesOutside(profiles[..|profiles| - 1], excluded)
      + if HasAccount(excluded, profiles[|profiles| - 1].accountId) then [] else [|profiles| - 1]
  }

  lemma {:induction false} PlaceOutside(profiles: seq<Profile>, excluded: seq<Profile>, x: nat)
    requires x < |PlacesOutside(profiles, excluded)|
    ensures var i := PlacesOutside(profiles, excluded)[x];
            i < |profiles| && Outside(profiles, excluded)[x] == profiles[i]
              && !HasAccount(excluded, profiles[i].accountId)
    ensures forall w :: 0 <= w < x ==> PlacesOutside(profiles, excluded)[w] < PlacesOutside(profiles, excluded)[x]
  {
    var n := |profiles| - 1;
    var rest := PlacesOutside(profiles[..n], excluded);
    if x < |rest| {
      PlaceOutside(profiles[..n], excluded, x);
    } else {
      forall w | 0 <= w < x ensures rest[w] < n { PlaceOutside(profiles[..n], excluded, w); }
    }
  }

  lemma {:induction false} PlacedOutside(profiles: seq<Profile>, excluded: seq<Profile>, i: nat) returns (x: nat)
    requires i < |profiles| && !HasAccount(excluded, profiles[i].accountId)
    ensures x < |PlacesOutside(profiles, excluded)| && PlacesOutside(profiles, excluded)[x] == i
  {
    var n := |profiles| - 1;
    if i < n {
      x := PlacedOutside(profiles[..n], excluded, i);
    } else {
      x := |PlacesOutside(profiles, excluded)| - 1;
    }
  }

  lemma OutsidePlaces(profiles: seq<Profile>, excluded: seq<Profile>) returns (idx: seq<nat>)
    ensures |idx| == |Outside(profiles, excluded)|
    ensures forall x :: 0 <= x < |idx| ==>
                          idx[x] < |profiles| && Outside(profiles, excluded)[x] == profiles[idx[x]]
    ensures forall x, y :: 0 <= x < y < |idx| ==> idx[x] < idx[y]
    ensures forall i :: 0 <= i < |profiles| ==> (i in idx <==> !HasAccount(excluded, profiles[i].accountId))
  {
    idx := PlacesOutside(profiles, excluded);
    forall x | 0 <= x < |idx|
      ensures idx[x] < |profiles| && Outside(profiles, excluded)[x] == profiles[idx[x]]
              && !HasAccount(excluded, profiles[idx[x]].accountId)
    {
      PlaceOutside(profiles, excluded, x);
    }
    forall x, y | 0 <= x < y < |idx| ensures idx[x] < idx[y] { PlaceOutside(profiles, excluded, y); }
    forall i | 0 <= i < |profiles| && !HasAccount(excluded, profiles[i].accountId) ensures i in idx {
      var x := PlacedOutside(profiles, excluded, i);
    }
  }

  lemma LeftPlaces(tokens: seq<Token>, ms: seq<Mention>, available: seq<Profile>) returns (idx: seq<nat>)
    ensures var s := Classify(tokens, SortByStart(ms));
            AllLeft(tokens, ms, available, Outside(available, s.excluded), idx)
  {
    var s := Classify(tokens, SortByStart(ms));
    idx := OutsidePlaces(available, s.excluded);
    forall i | 0 <= i < |available| ensures i in idx <==> LeftAt(tokens, ms, available, i) {
      BarredIff(tokens, ms, available[i].accountId);
    }
  }

  lemma OneLeftIff(tokens: seq<Token>, ms: seq<Mention>, available: seq<Profile>)
    ensures var remaining := Outside(available, Classify(tokens, SortByStart(ms)).excluded);
            && (|remaining| == 1 <==> exists i :: OnlyLeft(tokens, ms, available, i))
            && forall i :: OnlyLeft(tokens, ms, available, i) ==> remaining == [available[i]]
  {
    var remaining := Outside(available, Classify(tokens, SortByStart(ms)).excluded);
    var idx := LeftPlaces(tokens, ms, available);
    if |remaining| == 1 {
      assert idx == [idx[0]] && OnlyLeft(tokens, ms, available, idx[0]);
    }
    forall i | OnlyLeft(tokens, ms, available, i) ensures remaining == [available[i]] {
      forall y | 0 <= y < |idx| ensures idx[y] == i { assert idx[y] in idx; }
      assert i in idx;
      OnlyPlace(idx, i);
    }
  }

  lemma OnlyPlace(idx: seq<nat>, i: nat)
    requires i in idx && forall y :: 0 <= y < |idx| ==> idx[y] == i
    requires forall x, y :: 0 <= x < y < |idx| ==> idx[x] < idx[y]
    ensures idx == [i]
  {
    Spread(idx, |idx| - 1);
  }

  lemma {:induction false} Spread(idx: seq<nat>, k: nat)
    requires k < |idx| && forall x, y :: 0 <= x < y < |idx| ==> idx[x] < idx[y]
    ensures idx[k] >= idx[0] + k
  {
    if k > 0 { Spread(idx, k - 1); }
  }

  /** Which of the four answers the mentions come to.  What is unclear is asked about
      first; then what is named is taken; only a request that names nobody looks at how many
      accounts are left, and takes the only one there is. */
  lemma AnswerIff(tokens: seq<Token>, available: seq<Profile>, ms: seq<Mention>, request: bool)
    ensures var r := Decide(tokens, available, ms, request);
            var unclear, named := AnyUnclear(tokens, ms), AnyNamed(tokens, ms);
            var sole := exists i :: OnlyLeft(tokens, ms, available, i);
            && (r.status == Matched <==> !unclear && named)
            && (r.status == SoleProfile <==> !unclear && !named && request && sole)
            && (r.status == ClarificationRequired <==> unclear || (!named && request && !sole))
            && (r.status == NotAccountRequest <==> !unclear && !named && !request)
            && (r.accountRequest <==> r.status != NotAccountRequest)
            && (r.explicitMatch <==> unclear || named)
  {
    NonEmptyIff(tokens, ms);
    OneLeftIff(tokens, ms, available);
    if p :| Unclear(tokens, ms, p) { assert ms != []; }
  }

  /** What is granted: nothing but what is named outside every exclusion, or the only
      account left. */
  lemma GrantedExactly(tokens: seq<Token>, available: seq<Profile>, ms: seq<Mention>, request: bool)
    ensures var r := Decide(tokens, available, ms, request);
            && (r.status == Matched ==> r.ambiguous == [] && forall p :: p in r.matched <==> Named(tokens, ms, p))
            && (r.status == SoleProfile ==>
                  r.ambiguous == []
                  && exists i :: OnlyLeft(tokens, ms, available, i) && r.matched == [available[i]])
            && (r.status == ClarificationRequired || r.status == NotAccountRequest ==> r.matched == [])
            && (r.status == NotAccountRequest ==> r.ambiguous == [])
            && forall p :: p in r.excluded <==> ExcludedBy(tokens, ms, p)
  {
    AnswerIff(tokens, available, ms, request);
    OneLeftIff(tokens, ms, available);
    forall p ensures var s := Classify(tokens, SortByStart(ms));
                     && (p in Outside(s.selected, s.excluded) <==> Named(tokens, ms, p))
                     && (p in s.excluded <==> ExcludedBy(tokens, ms, p))
    {
      ListsHold(tokens, ms, p);
      SidesExactly(tokens, ms, p);
    }
  }

  /** What is offered when nothing said is unclear: exactly the accounts left, all of them,
      in the order they are in. */
  lemma OfferedLeft(tokens: seq<Token>, available: seq<Profile>, ms: seq<Mention>, request: bool)
    returns (idx: seq<nat>)
    requires Decide(tokens, available, ms, request).status == ClarificationRequired && !AnyUnclear(tokens, ms)
    ensures AllLeft(tokens, ms, available, Decide(tokens, available, ms, request).ambiguous, idx)
  {
    NonEmptyIff(tokens, ms);
    idx := LeftPlaces(tokens, ms, available);
  }

  /** What is offered otherwise: each account named or unclear, once. */
  lemma OfferedUnclear(tokens: seq<Token>, available: seq<Profile>, ms: seq<Mention>, request: bool, id: string)
    requires AnyUnclear(tokens, ms)
    ensures var offered := Decide(tokens, available, ms, request).ambiguous;
            && (HasAccount(offered, id)
                <==> exists p: Profile :: p.accountId == id && (Named(tokens, ms, p) || Unclear(tokens, ms, p)))
            && OncePerAccount(offered)
  {
    NonEmptyIff(tokens, ms);
    var s := Classify(tokens, SortByStart(ms));
    var all := Outside(s.selected, s.excluded) + Outside(s.ambiguous, s.excluded);
    var offered := UniqueAccounts(all);
    OnePerAccount(all);
    if k :| 0 <= k < |offered| && offered[k].accountId == id {
      UniqueHolds(all, offered[k]);
      ListsHold(tokens, ms, offered[k]);
    }
    if p: Profile :| p.accountId == id && (Named(tokens, ms, p) || Unclear(tokens, ms, p)) {
      ListsHold(tokens, ms, p);
      UniqueHolds(all, p);
    }
  }

  ghost predicate OncePerAccount(profiles: seq<Profile>) {
    forall j, k :: 0 <= j < k < |profiles| ==> profiles[j].accountId != profiles[k].accountId
  }

  lemma {:induction false} OnePerAccount(profiles: seq<Profile>)
    ensures OncePerAccount(UniqueAccounts(profiles))
  {
    if profiles != [] {
      var n := |profiles| - 1;
      OnePerAccount(profiles[..n]);
      var rest := UniqueAccounts(profiles[..n]);
      if !HasAccount(rest, profiles[n].accountId) {
        forall j | 0 <= j < |rest| ensures rest[j].accountId != profiles[n].accountId {}
      }
    }
  }

  /** The whole resolver: calling off and having no accounts come first; then the mentions
      in the message decide, with the caller's word on whether an account is needed, or
      else the message's own. */
  lemma ResolveIff(tokens: seq<Token>, available: seq<Profile>, aliases: seq<Pattern>, cancels: bool,
                   require: Option<bool>)
    ensures var r := Resolve(tokens, available, aliases, cancels, require);
            var request := if require.None? then IsAccountRequest(tokens) else require.value;
            && (r.status == CancelledRequest <==> cancels)
            && (r.status == NoProfiles <==> !cancels && available == [])
            && (r.status in {CancelledRequest, NoProfiles} ==>
                  r.matched == r.excluded == r.ambiguous == [] && !r.explicitMatch
                  && (r.accountRequest <==> !cancels && request))
            && (!cancels && available != [] ==>
                  r == Decide(tokens, available, Mentions(tokens, available, aliases), request))
  {
  }

  // ---------------------------------------------------- the order of a grant

  ghost predicate NamesAt(tokens: seq<Token>, ms: seq<Mention>, k: int, p: Profile) {
    0 <= k < |ms| && !Excluded(tokens, ms[k]) && ms[k].owners == [p]
  }

  /** Some mention names `p`, and none up to it names `q`. */
  ghost predicate NamedFirst(tokens: seq<Token>, ms: seq<Mention>, p: Profile, q: Profile) {
    exists k :: NamesAt(tokens, ms, k, p) && forall l :: 0 <= l <= k ==> !NamesAt(tokens, ms, l, q)
  }

  lemma {:induction false} SelectedInOrder(tokens: seq<Token>, ms: seq<Mention>, a: nat, b: nat)
    requires a < b < |Classify(tokens, ms).selected|
    ensures var s := Classify(tokens, ms).selected; NamedFirst(tokens, ms, s[a], s[b])
  {
    var n := |ms| - 1;
    var rest, s := Classify(tokens, ms[..n]).selected, Classify(tokens, ms).selected;
    AddOwnersExtends(rest, ms[n].owners);
    if b < |rest| {
      SelectedInOrder(tokens, ms[..n], a, b);
      NamedFirstLonger(tokens, ms, s[a], s[b]);
    } else {
      assert |ms[n].owners| == 1;
      AddOne(rest, ms[n].owners);
      ClassifyExactly(tokens, ms[..n], s[a]);
      ClassifyExactly(tokens, ms[..n], s[b]);
      var k :| 0 <= k < n && !Excluded(tokens, ms[..n][k]) && ms[..n][k].owners == [s[a]];
      assert NamesAt(tokens, ms, k, s[a]);
      forall l | 0 <= l <= k ensures !NamesAt(tokens, ms, l, s[b]) { assert ms[..n][l] == ms[l]; }
    }
  }

  lemma NamedFirstLonger(tokens: seq<Token>, ms: seq<Mention>, p: Profile, q: Profile)
    requires ms != [] && NamedFirst(tokens, ms[..|ms| - 1], p, q)
    ensures NamedFirst(tokens, ms, p, q)
  {
    var n := |ms| - 1;
    var k :| NamesAt(tokens, ms[..n], k, p) && forall l :: 0 <= l <= k ==> !NamesAt(tokens, ms[..n], l, q);
    assert NamesAt(tokens, ms, k, p);
    forall l | 0 <= l <= k ensures !NamesAt(tokens, ms, l, q) { assert !NamesAt(tokens, ms[..n], l, q); }
  }

  lemma {:induction false} AddOwnersExtends(target: seq<Profile>, owners: seq<Profile>)
    ensures target <= AddOwners(target, owners)
  {
    if owners != [] { AddOwnersExtends(target, owners[..|owners| - 1]); }
  }

  lemma AddOne(target: seq<Profile>, owners: seq<Profile>)
    requires |owners| == 1
    ensures AddOwners(target, owners) == if owners[0] in target then target else target + [owners[0]]
  {
    assert owners[..0] == [] && AddOwners(target, owners[..0]) == target;
  }

  ghost predicate ByStart(ms: seq<Mention>) {
    forall j, k :: 0 <= j < k < |ms| ==> ms[j].start <= ms[k].start
  }

  lemma {:induction false} SortedByStart(ms: seq<Mention>)
    ensures ByStart(SortByStart(ms))
  {
    if ms != [] {
      var n := |ms| - 1;
      SortedByStart(ms[..n]);
      InsertSorted(ms[n], SortByStart(ms[..n]));
    }
  }

  lemma {:induction false} InsertSorted(m: Mention, sorted: seq<Mention>)
    requires ByStart(sorted)
    ensures ByStart(InsertByStart(m, sorted))
  {
    if !(sorted == [] || sorted[|sorted| - 1].start <= m.start) {
      var n := |sorted| - 1;
      InsertSorted(m, sorted[..n]);
      var front := InsertByStart(m, sorted[..n]);
      forall j | 0 <= j < |front| ensures front[j].start <= sorted[n].start {
        InsertStartKeeps(m, sorted[..n], front[j]);
      }
    }
  }

  /** Accounts are granted in the order in which the message first names them. */
  lemma MatchedInOrderSaid(tokens: seq<Token>, available: seq<Profile>, ms: seq<Mention>, request: bool, a: nat,
                           b: nat) returns (m: Mention)
    requires Decide(tokens, available, ms, request).status == Matched
    requires a < b < |Decide(tokens, available, ms, request).matched|
    ensures var matched := Decide(tokens, available, ms, request).matched;
            && m in ms && !Excluded(tokens, m) && m.owners == [matched[a]]
            && forall m' :: m' in ms && !Excluded(tokens, m') && m'.owners == [matched[b]] ==> m.start <= m'.start
  {
    var s := Classify(tokens, SortByStart(ms));
    NonEmptyIff(tokens, ms);
    var idx := OutsidePlaces(s.selected, s.excluded);
    SelectedInOrder(tokens, SortByStart(ms), idx[a], idx[b]);
    m := FirstStart(tokens, ms, s.selected[idx[a]], s.selected[idx[b]]);
  }

  lemma FirstStart(tokens: seq<Token>, ms: seq<Mention>, p: Profile, q: Profile) returns (m: Mention)
    requires NamedFirst(tokens, SortByStart(ms), p, q)
    ensures m in ms && !Excluded(tokens, m) && m.owners == [p]
    ensures forall m' :: m' in ms && !Excluded(tokens, m') && m'.owners == [q] ==> m.start <= m'.start
  {
    var sorted := SortByStart(ms);
    var k :| NamesAt(tokens, sorted, k, p) && forall l :: 0 <= l <= k ==> !NamesAt(tokens, sorted, l, q);
    m := sorted[k];
    SortKeeps(ms, m);
    SortedByStart(ms);
    forall m' | m' in ms && !Excluded(tokens, m') && m'.owners == [q] ensures m.start <= m'.start {
      SortKeeps(ms, m');
      var l :| 0 <= l < |sorted| && sorted[l] == m';
      assert NamesAt(tokens, sorted, l, q);
    }
  }

  // ---------------------------------------------------------- what is a request

  ghost predicate SaysWord(tokens: seq<Token>, word: string) {
    Word(word) in tokens
  }

  /** A message is about an account when it speaks of calendars, contacts, schedules or a
      mailbox, or asks to look at mail, and asks for no change. */
  lemma RequestIff(tokens: seq<Token>)
    ensures IsAccountRequest(tokens) <==>
              && (forall w :: w in {"add", "compose", "create", "delete", "draft", "forward",
                                    "remove", "reply", "send", "update"} ==>
                                !SaysWord(tokens, w))
              && ((exists w :: w in {"calendar", "calendars", "contact", "contacts", "gmail", "inbox", "schedule"}
                               && SaysWord(tokens, w))
                  || ((exists w :: w in {"email", "emails", "mail", "message", "messages"} && SaysWord(tokens, w))
                      && exists w :: w in {"any", "check", "find", "latest", "list", "new", "read", "recent",
                                           "search", "show", "what"} && SaysWord(tokens, w)))
  {
    SaysIff(tokens, WRITE_TERMS);
    SaysIff(tokens, ACCOUNT_TERMS);
    SaysIff(tokens, MAIL_TERMS);
    SaysIff(tokens, READ_TERMS);
  }

  lemma SaysIff(tokens: seq<Token>, terms: set<string>)
    ensures Says(tokens, terms) <==> exists w :: w in terms && SaysWord(tokens, w)
  {
    if k :| 0 <= k < |tokens| && tokens[k].Word? && tokens[k].text in terms {
      assert tokens[k] == Word(tokens[k].text) && SaysWord(tokens, tokens[k].text);
    }
    if w :| w in terms && SaysWord(tokens, w) {
      var k :| 0 <= k < |tokens| && tokens[k] == Word(w);
    }
  }

  /** A place is in the scope of an exclusion when one of the five words comes before it
      with no comma, semicolon or full stop from there on. */
  lemma {:induction false} ExclusionIff(tokens: seq<Token>, start: nat)
    requires start <= |tokens|
    ensures InExclusion(tokens, start) <==>
              exists j :: 0 <= j < start && ExcludesFrom(tokens, j) && forall k :: j <= k < start ==> tokens[k].Word?
  {
    if start > 0 {
      ExclusionIff(tokens, start - 1);
      if InExclusion(tokens, start) && !ExcludesFrom(tokens, start - 1) {
        var j :| 0 <= j < start - 1 && ExcludesFrom(tokens, j) && forall k :: j <= k < start - 1 ==> tokens[k].Word?;
        assert forall k :: j <= k < start ==> tokens[k].Word?;
      }
      if j :| 0 <= j < start && ExcludesFrom(tokens, j) && forall k :: j <= k < start ==> tokens[k].Word? {
        assert tokens[start - 1].Word?;
        if j < start - 1 { assert ExcludesFrom(tokens, j); }
      }
    }
  }

  ghost predicate ExcludesFrom(tokens: seq<Token>, j: int) {
    && 0 <= j < |tokens|
    && tokens[j] in {Word("not"), Word("except"), Word("excluding"), Word("exclude"), Word("without")}
  }

  // -------------------------------------------------------- labels and aliases

  /** The words with single spaces in between. */
  ghost function Joined(words: Words): string {
    if words == [] then "" else if |words| == 1 then words[0] else words[0] + " " + Joined(words[1..])
  }

  lemma {:induction false} LengthExactly(words: Words)
    ensures Length(words) == |Joined(words)|
  {
    if |words| > 1 { LengthExactly(words[1..]); }
  }

  /** A word of a label with fewer than three letters says nothing on its own. */
  lemma ShortWordIsNoAlias(p: Profile, word: string)
    requires |word| < 3 && [word] !in p.parts
    ensures !HasAlias(p, [word])
  {
    forall k | 0 <= k < |p.name| && |p.name[k]| >= 3 ensures [p.name[k]] != [word] {
      assert [p.name[k]][0] != [word][0];
    }
  }

  /** A longer one does, and so does each part of the label that is not the whole of it. */
  lemma WordsAndPartsAreAliases(p: Profile, k: nat, part: Words)
    requires k < |p.name| && |p.name[k]| >= 3 && part in p.parts && part != [] && part != p.name
    ensures HasAlias(p, [p.name[k]]) && HasAlias(p, part)
  {
  }

  /** The labels of one length, in the order they are tried in. */
  ghost function OfLength(patterns: seq<Pattern>, n: nat): seq<Pattern> {
    if patterns == [] then []
    else
      var last := patterns[|patterns| - 1];
      OfLength(patterns[..|patterns| - 1], n) + if Length(last.words) == n then [last] else []
  }

  ghost function LabelsOf(available: seq<Profile>, n: nat): seq<Pattern> {
    if available == [] then []
    else
      var last := available[|available| - 1];
      LabelsOf(available[..|available| - 1], n)
        + if Length(last.name) == n then [Pattern(last.name, [last])] else []
  }

  /** Labels of one length are tried in the order of their profiles. */
  lemma {:induction false} LabelsKeepOrder(available: seq<Profile>, n: nat)
    ensures OfLength(LabelPatterns(available), n) == LabelsOf(available, n)
  {
    if available != [] {
      var k := |available| - 1;
      LabelsKeepOrder(available[..k], n);
      var p := Pattern(available[k].name, [available[k]]);
      InsertStable(p, LabelPatterns(available[..k]), n);
    }
  }

  lemma {:induction false} InsertStable(p: Pattern, sorted: seq<Pattern>, n: nat)
    ensures OfLength(InsertByLength(p, sorted), n)
            == OfLength(sorted, n) + if Length(p.words) == n then [p] else []
  {
    if !(sorted == [] || Length(sorted[|sorted| - 1].words) >= Length(p.words)) {
      InsertStable(p, sorted[..|sorted| - 1], n);
    }
  }

  // ------------------------------------------------------------- what is heard

  /** The words stand in the message from place `i` on, next to each other. */
  ghost predicate Occurs(tokens: seq<Token>, words: Words, i: int) {
    0 <= i && i + |words| <= |tokens|
    && tokens[i..i + |words|] == seq(|words|, k requires 0 <= k < |words| => Word(words[k]))
  }

  lemma OccursIff(tokens: seq<Token>, words: Words, i: nat)
    ensures MatchesAt(tokens, words, i) <==> Occurs(tokens, words, i)
  {
    if i + |words| <= |tokens| {
      var here := tokens[i..i + |words|];
      assert forall k :: 0 <= k < |words| ==> here[k] == tokens[i + k];
    }
  }

  /** A search from the left reports the occurrence itself or one that overlaps it from
      before. */
  lemma {:induction false} FoundNear(tokens: seq<Token>, words: Words, from: nat, i: nat) returns (j: nat)
    requires words != [] && from <= i && Occurs(tokens, words, i)
    ensures from <= j <= i < j + |words| && FoundAt(tokens, words, from, j) && Occurs(tokens, words, j)
    decreases |tokens| - from
  {
    OccursIff(tokens, words, from);
    OccursIff(tokens, words, i);
    if MatchesAt(tokens, words, from) {
      if i < from + |words| { j := from; } else { j := FoundNear(tokens, words, from + |words|, i); }
    } else {
      j := FoundNear(tokens, words, from + 1, i);
    }
  }

  lemma {:induction false} LabelIsPattern(available: seq<Profile>, p: Profile)
    requires p in available
    ensures Pattern(p.name, [p]) in LabelPatterns(available)
  {
    var n := |available| - 1;
    InsertedOnly(Pattern(available[n].name, [available[n]]), LabelPatterns(available[..n]), Pattern(p.name, [p]));
    if p != available[n] { LabelIsPattern(available[..n], p); }
  }

  /** Where a profile's label or alias is said, an accepted mention takes a word of it, or
      of the same words said from a little before and overlapping it: nothing that is said
      of an account goes unheard. */
  lemma SaidIsHeard(tokens: seq<Token>, available: seq<Profile>, aliases: seq<Pattern>, p: Profile, words: Words,
                    i: nat) returns (j: nat, m: Mention)
    requires AliasesOk(available, aliases) && p in available && (p.name == words || HasAlias(p, words))
    requires words != [] && Occurs(tokens, words, i)
    ensures j <= i < j + |words| && Occurs(tokens, words, j)
    ensures m in Mentions(tokens, available, aliases) && m.start < j + |words| && j < m.end
  {
    var labels := LabelPatterns(available);
    ClaimAllKeeps(tokens, labels, [], []);
    assert [] + labels == labels;
    var claimed, all := ClaimAll(tokens, labels, []), Mentions(tokens, available, aliases);
    ClaimAllKeeps(tokens, aliases, labels, claimed);
    j := FoundNear(tokens, words, 0, i);
    if p.name == words {
      LabelIsPattern(available, p);
      var k :| 0 <= k < |labels| && labels[k] == Pattern(words, [p]);
      EveryMatchCovered(tokens, labels, [], [], k, j);
      m := Covering(Mention(j, j + |words|, [p]), claimed);
    } else {
      assert Listed(aliases, words);
      var k :| 0 <= k < |aliases| && aliases[k].words == words;
      EveryMatchCovered(tokens, aliases, labels, claimed, k, j);
      m := Covering(Mention(j, j + |words|, aliases[k].owners), all);
    }
  }

  lemma Covering(m: Mention, ms: seq<Mention>) returns (c: Mention)
    requires OverlapsAny(m, ms)
    ensures c in ms && c.start < m.end && m.start < c.end
  {
    var k :| 0 <= k < |ms| && Overlap(m, ms[k]);
    c := ms[k];
  }
}
