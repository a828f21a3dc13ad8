/** The resolver as the program runs it: tables, spans and lists filled in loops. */
module AccountResolver {
  import opened Collections
  import opened AccountRouting
  import opened AccountRoutingProofs

  // --------------------------------------------------------- the alias table

  /** Row `a` lists who of `first` has the alias, and `p` if the alias is among `done`. */
  ghost predicate RowOk(first: seq<Profile>, p: Profile, done: seq<Words>, table: map<Words, seq<Profile>>, a: Words) {
    if a in table then
      && a != [] && table[a] != [] && Distinct(table[a])
      && forall q :: q in table[a] <==> (q in first && HasAlias(q, a)) || (q == p && a in done)
    else a !in done && forall q :: q in first ==> !HasAlias(q, a)
  }

  ghost predicate TableOk(first: seq<Profile>, p: Profile, done: seq<Words>, table: map<Words, seq<Profile>>) {
    forall a {:trigger RowOk(first, p, done, table, a)} :: RowOk(first, p, done, table, a)
  }

  method Candidates(p: Profile) returns (candidates: seq<Words>)
    ensures forall a :: a in candidates <==> HasAlias(p, a)
  {
    candidates := [];
    for k := 0 to |p.name|
      invariant forall a :: a in candidates <==> exists i :: 0 <= i < k && |p.name[i]| >= 3 && a == [p.name[i]]
    {
      if |p.name[k]| >= 3 { candidates := candidates + [[p.name[k]]]; }
    }
    ghost var singles := candidates;
    for k := 0 to |p.parts|
      invariant forall a :: a in candidates <==> a in singles || (a in p.parts[..k] && a != [] && a != p.name)
    {
      assert p.parts[..k + 1] == p.parts[..k] + [p.parts[k]];
      if p.parts[k] != [] && p.parts[k] != p.name { candidates := candidates + [p.parts[k]]; }
    }
    assert p.parts[..|p.parts|] == p.parts;
  }

  method AliasOwners(available: seq<Profile>) returns (table: map<Words, seq<Profile>>)
    ensures forall a {:trigger a in table} :: a in table ==>
              a != [] && table[a] != [] && Distinct(table[a]) && forall q ::
                  q in table[a] <==> q in available && HasAlias(q, a)
    ensures forall q, a {:trigger HasAlias(q, a)} :: q in available && HasAlias(q, a) ==> a in table
  {
    table := map[];
    ghost var nobody := Profile("", "", [], [], []);
    for i := 0 to |available|
      invariant TableOk(available[..i], nobody, [], table)
    {
      var p := available[i];
      var candidates := Candidates(p);
      StartProfile(available[..i], nobody, p, table);
      for j := 0 to |candidates|
        invariant TableOk(available[..i], p, candidates[..j], table)
      {
        var alias := candidates[j];
        var owners := if alias in table then table[alias] else [];
        AddAlias(available[..i], p, candidates[..j], alias, table);
        table := table[alias := if p in owners then owners else owners + [p]];
        assert candidates[..j + 1] == candidates[..j] + [alias];
      }
      assert candidates[..|candidates|] == candidates;
      EndProfile(available[..i], p, candidates, nobody, table);
      assert available[..i + 1] == available[..i] + [p];
    }
    assert available[..|available|] == available;
    forall a | a in table
      ensures a != [] && table[a] != [] && Distinct(table[a]) && forall q ::
                q in table[a] <==> q in available && HasAlias(q, a)
    {
      assert RowOk(available, nobody, [], table, a);
    }
    forall q, a | q in available && HasAlias(q, a) ensures a in table { assert RowOk(available, nobody, [], table, a); }
  }

  lemma StartProfile(first: seq<Profile>, p: Profile, q: Profile, table: map<Words, seq<Profile>>)
    requires TableOk(first, p, [], table)
    ensures TableOk(first, q, [], table)
  {
    forall a ensures RowOk(first, q, [], table, a) { assert RowOk(first, p, [], table, a); }
  }

  lemma AddAlias(first: seq<Profile>, p: Profile, done: seq<Words>, alias: Words, table: map<Words, seq<Profile>>)
    requires TableOk(first, p, done, table) && HasAlias(p, alias)
    ensures var owners := if alias in table then table[alias] else [];
            TableOk(first, p, done + [alias], table[alias := if p in owners then owners else owners + [p]])
  {
    var owners := if alias in table then table[alias] else [];
    var more, grown := done + [alias], table[alias := if p in owners then owners else owners + [p]];
    assert RowOk(first, p, done, table, alias);
    if p !in owners { DistinctAppend(owners, p); }
    forall a ensures RowOk(first, p, more, grown, a) { assert RowOk(first, p, done, table, a); }
  }

  lemma EndProfile(first: seq<Profile>, p: Profile, candidates: seq<Words>, nobody: Profile,
                   table: map<Words, seq<Profile>>)
    requires TableOk(first, p, candidates, table) && forall a :: a in candidates <==> HasAlias(p, a)
    ensures TableOk(first + [p], nobody, [], table)
  {
    var all := first + [p];
    forall a ensures RowOk(all, nobody, [], table, a) { assert RowOk(first, p, candidates, table, a); }
  }

  /** Insert behind every owner whose label does not come later. */
  function InsertByLabel(p: Profile, sorted: seq<Profile>): seq<Profile> {
    if sorted == [] || !Before(p.folded, sorted[|sorted| - 1].folded) then sorted + [p]
    else InsertByLabel(p, sorted[..|sorted| - 1]) + [sorted[|sorted| - 1]]
  }

  function SortByLabel(owners: seq<Profile>): seq<Profile> {
    if owners == [] then [] else InsertByLabel(owners[|owners| - 1], SortByLabel(owners[..|owners| - 1]))
  }

  method SortOwners(owners: seq<Profile>) returns (sorted: seq<Profile>)
    ensures sorted == SortByLabel(owners)
  {
    sorted := [];
    for k := 0 to |owners|
      invariant sorted == SortByLabel(owners[..k])
    {
      assert owners[..k + 1][..k] == owners[..k];
      sorted := InsertByLabel(owners[k], sorted);
    }
    assert owners[..|owners|] == owners;
  }

  lemma NotBeforeTransitive(a: string, b: string, c: string)
    requires !Before(b, a) && !Before(c, b)
    ensures !Before(c, a)
  {
    if Before(c, a) {
      BeforeTotal(a, b);
      if Before(a, b) { BeforeTransitive(c, a, b); }
    }
  }

  lemma {:induction false} InsertedInOrder(p: Profile, sorted: seq<Profile>)
    requires Distinct(sorted) && InLabelOrder(sorted) && p !in sorted
    ensures var r := InsertByLabel(p, sorted);
            && Distinct(r) && InLabelOrder(r) && |r| == |sorted| + 1 && (forall q :: q in r <==> q == p || q in sorted)
  {
    var r := InsertByLabel(p, sorted);
    if sorted != [] {
      var n := |sorted| - 1;
      var last := sorted[n];
      assert sorted == sorted[..n] + [last];
      if Before(p.folded, last.folded) {
        InsertedInOrder(p, sorted[..n]);
        var rest := InsertByLabel(p, sorted[..n]);
        DistinctAppend(rest, last);
        BeforeAntisymmetric(p.folded, last.folded);
        forall k | 0 <= k < |rest| ensures !Before(last.folded, rest[k].folded) { assert rest[k] in rest; }
      } else {
        DistinctAppend(sorted, p);
        forall k | 0 <= k < |sorted| ensures !Before(p.folded, sorted[k].folded) {
          if k < n { NotBeforeTransitive(sorted[k].folded, last.folded, p.folded); }
        }
      }
    }
  }

  /** Sorting keeps the owners and puts them in the order of their labels. */
  lemma {:induction false} SortedByLabel(owners: seq<Profile>)
    requires Distinct(owners)
    ensures var r := SortByLabel(owners);
            && Distinct(r) && InLabelOrder(r) && |r| == |owners| && (forall q :: q in r <==> q in owners)
  {
    if owners != [] {
      var n := |owners| - 1;
      assert owners == owners[..n] + [owners[n]];
      SortedByLabel(owners[..n]);
      InsertedInOrder(owners[n], SortByLabel(owners[..n]));
    }
  }

  /** The rows in order of length; rows of equal length come in whatever order the table
      yields them. */
  method SortedAliases(available: seq<Profile>) returns (aliases: seq<Pattern>)
    ensures AliasesOk(available, aliases)
  {
    var table := AliasOwners(available);
    aliases := [];
    var left := table.Keys;
    while left != {}
      invariant left <= table.Keys && LongestFirst(aliases)
      invariant forall q {:trigger q in aliases} ::
                  q in aliases ==> q.words in table && q.owners == SortByLabel(table[q.words])
      invariant forall a {:trigger a in table} ::
                  a in table && a !in left ==> Pattern(a, SortByLabel(table[a])) in aliases
      decreases left
    {
      var a :| a in left;
      left := left - {a};
      var owners := SortOwners(table[a]);
      var p := Pattern(a, owners);
      InsertKeepsOrder(p, aliases);
      forall q ensures q in InsertByLength(p, aliases) <==> q == p || q in aliases { InsertedOnly(p, aliases, q); }
      aliases := InsertByLength(p, aliases);
    }
    SortedTableOk(available, table, aliases);
  }

  lemma SortedTableOk(available: seq<Profile>, table: map<Words, seq<Profile>>, aliases: seq<Pattern>)
    requires forall a {:trigger a in table} :: a in table ==>
               a != [] && table[a] != [] && Distinct(table[a]) && forall q ::
                   q in table[a] <==> q in available && HasAlias(q, a)
    requires forall q, a {:trigger HasAlias(q, a)} :: q in available && HasAlias(q, a) ==> a in table
    requires LongestFirst(aliases)
    requires forall q {:trigger q in aliases} ::
               q in aliases ==> q.words in table && q.owners == SortByLabel(table[q.words])
    requires forall a {:trigger a in table} :: a in table ==> Pattern(a, SortByLabel(table[a])) in aliases
    ensures AliasesOk(available, aliases)
  {
    forall k | 0 <= k < |aliases| ensures AliasOk(available, aliases[k]) {
      assert aliases[k] in aliases;
      SortedByLabel(table[aliases[k].words]);
    }
    forall p, alias | p in available && HasAlias(p, alias) ensures Listed(aliases, alias) {
      var row := Pattern(alias, SortByLabel(table[alias]));
      assert row in aliases;
      var k :| 0 <= k < |aliases| && aliases[k] == row;
      assert aliases[k].words == alias;
    }
    forall j, k | 0 <= j < k < |aliases| ensures Length(aliases[j].words) >= Length(aliases[k].words) {
      assert AtLeastAsLong(aliases, j, k);
    }
  }

  // ------------------------------------------------------------------ claims

  method Overlaps(m: Mention, occupied: seq<Mention>) returns (found: bool)
    ensures found == OverlapsAny(m, occupied)
  {
    for k := 0 to |occupied|
      invariant forall i :: 0 <= i < k ==> !Overlap(m, occupied[i])
    {
      if Overlap(m, occupied[k]) { return true; }
    }
    return false;
  }

  method Matches(tokens: seq<Token>, words: Words, i: nat) returns (ok: bool)
    ensures ok == MatchesAt(tokens, words, i)
  {
    if i + |words| > |tokens| { return false; }
    for k := 0 to |words|
      invariant forall x :: 0 <= x < k ==> tokens[i + x] == Word(words[x])
    {
      if tokens[i + k] != Word(words[k]) { return false; }
    }
    return true;
  }

  method Claim(tokens: seq<Token>, p: Pattern, mentions0: seq<Mention>) returns (mentions: seq<Mention>)
    requires p.words != []
    ensures mentions == ClaimPattern(tokens, p, 0, mentions0)
  {
    mentions := mentions0;
    var i := 0;
    while i + |p.words| <= |tokens|
      invariant ClaimPattern(tokens, p, 0, mentions0) == ClaimPattern(tokens, p, i, mentions)
      decreases |tokens| - i
    {
      var here := Matches(tokens, p.words, i);
      if here {
        var m := Mention(i, i + |p.words|, p.owners);
        var taken := Overlaps(m, mentions);
        if !taken { mentions := mentions + [m]; }
        i := i + |p.words|;
      } else {
        i := i + 1;
      }
    }
  }

  method ClaimEach(tokens: seq<Token>, patterns: seq<Pattern>, mentions0: seq<Mention>) returns (mentions: seq<Mention>)
    ensures mentions == ClaimAll(tokens, patterns, mentions0)
  {
    mentions := mentions0;
    for k := 0 to |patterns|
      invariant mentions == ClaimAll(tokens, patterns[..k], mentions0)
    {
      assert patterns[..k + 1][..k] == patterns[..k];
      if patterns[k].words != [] { mentions := Claim(tokens, patterns[k], mentions); }
    }
    assert patterns[..|patterns|] == patterns;
  }

  method AddEach(target0: seq<Profile>, owners: seq<Profile>) returns (target: seq<Profile>)
    ensures target == AddOwners(target0, owners)
  {
    target := target0;
    for k := 0 to |owners|
      invariant target == AddOwners(target0, owners[..k])
    {
      assert owners[..k + 1][..k] == owners[..k];
      if owners[k] !in target { target := target + [owners[k]]; }
    }
    assert owners[..|owners|] == owners;
  }

  method Sort(mentions: seq<Mention>) returns (sorted: seq<Mention>)
    ensures sorted == SortByStart(mentions)
  {
    sorted := [];
    for k := 0 to |mentions|
      invariant sorted == SortByStart(mentions[..k])
    {
      assert mentions[..k + 1][..k] == mentions[..k];
      sorted := InsertByStart(mentions[k], sorted);
    }
    assert mentions[..|mentions|] == mentions;
  }

  method ClassifyEach(tokens: seq<Token>, mentions: seq<Mention>)
    returns (selected: seq<Profile>, excluded: seq<Profile>, ambiguous: seq<Profile>)
    ensures Sides(selected, excluded, ambiguous) == Classify(tokens, mentions)
  {
    selected, excluded, ambiguous := [], [], [];
    for k := 0 to |mentions|
      invariant Sides(selected, excluded, ambiguous) == Classify(tokens, mentions[..k])
    {
      assert mentions[..k + 1][..k] == mentions[..k];
      var m := mentions[k];
      if m.start <= |tokens| && InExclusion(tokens, m.start) {
        excluded := AddEach(excluded, m.owners);
      } else if |m.owners| == 1 {
        selected := AddEach(selected, m.owners);
      } else {
        ambiguous := AddEach(ambiguous, m.owners);
      }
    }
    assert mentions[..|mentions|] == mentions;
  }

  /** The whole resolver.  The aliases it used are some listing `AliasesOk` allows, which
      leaves open only the order of aliases of one length and of owners with one label; so
      what is proved of `Resolve` for all of them holds of every run. */
  method ResolveAccountLabels(tokens: seq<Token>, available: seq<Profile>, cancels: bool, require: Option<bool>)
    returns (r: Resolution)
    ensures exists aliases ::
              AliasesOk(available, aliases) && r == Resolve(tokens, available, aliases, cancels, require)
    ensures r.status == SoleProfile ==> |r.matched| == 1
    ensures r.status !in {Matched, SoleProfile} ==> r.matched == []
  {
    var aliases := SortedAliases(available);
    if cancels {
      r := Resolution(CancelledRequest, [], [], [], false, false);
    } else {
      var request := if require.Some? then require.value else IsAccountRequest(tokens);
      if available == [] {
        r := Resolution(NoProfiles, [], [], [], false, request);
      } else {
        var mentions := ClaimEach(tokens, LabelPatterns(available), []);
        mentions := ClaimEach(tokens, aliases, mentions);
        r := DecideFrom(tokens, available, mentions, request);
      }
    }
    assert AliasesOk(available, aliases) && r == Resolve(tokens, available, aliases, cancels, require);
  }

  method DecideFrom(tokens: seq<Token>, available: seq<Profile>, mentions: seq<Mention>, request: bool)
    returns (r: Resolution)
    ensures r == Decide(tokens, available, mentions, request)
  {
    var sorted := Sort(mentions);
    var selected, excluded, ambiguous := ClassifyEach(tokens, sorted);
    selected, ambiguous := Outside(selected, excluded), Outside(ambiguous, excluded);
    if ambiguous != [] {
      return Resolution(ClarificationRequired, [], excluded, OrderedUnion(selected, ambiguous), mentions != [], true);
    }
    if selected != [] { return Resolution(Matched, selected, excluded, [], true, true); }
    if request {
      var remaining := Outside(available, excluded);
      if |remaining| == 1 { return Resolution(SoleProfile, remaining, excluded, [], false, true); }
      return Resolution(ClarificationRequired, [], excluded, remaining, false, true);
    }
    return Resolution(NotAccountRequest, [], excluded, [], false, false);
  }
}
