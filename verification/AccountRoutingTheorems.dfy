/** The main result about account routing, and the resolver's loops. */
module AccountRoutingTheorems {
  import opened Collections
  import opened AccountRouting
  import opened AccountRoutingProofs

  // ---------------------------------------------------------- classification

  predicate Excluded(tokens: seq<Token>, m: Mention) {
    m.start <= |tokens| && InExclusion(tokens, m.start)
  }

  lemma {:induction false} AddOwnersHolds(target: seq<Profile>, owners: seq<Profile>, p: Profile)
    ensures p in AddOwners(target, owners) <==> p in target || p in owners
  {
    if owners != [] {
      var n := |owners| - 1;
      AddOwnersHolds(target, owners[..n], p);
      assert owners == owners[..n] + [owners[n]];
    }
  }

  predicate ExcludedBy(tokens: seq<Token>, ms: seq<Mention>, p: Profile) {
    exists k :: 0 <= k < |ms| && Excluded(tokens, ms[k]) && p in ms[k].owners
  }

  predicate SelectedBy(tokens: seq<Token>, ms: seq<Mention>, p: Profile) {
    exists k :: 0 <= k < |ms| && !Excluded(tokens, ms[k]) && ms[k].owners == [p]
  }

  predicate SharedIn(tokens: seq<Token>, ms: seq<Mention>, p: Profile) {
    exists k :: 0 <= k < |ms| && !Excluded(tokens, ms[k]) && |ms[k].owners| != 1 && p in ms[k].owners
  }

  /** Which list a profile lands in, decided by its mentions alone. */
  lemma {:induction false} ClassifyExactly(tokens: seq<Token>, ms: seq<Mention>, p: Profile)
    ensures var s := Classify(tokens, ms);
            && (p in s.excluded <==> ExcludedBy(tokens, ms, p))
            && (p in s.selected <==> SelectedBy(tokens, ms, p))
            && (p in s.ambiguous <==> SharedIn(tokens, ms, p))
  {
    if ms != [] {
      var n := |ms| - 1;
      var rest := ms[..n];
      ClassifyExactly(tokens, rest, p);
      LastMention(tokens, ms, p);
      var s := Classify(tokens, rest);
      AddOwnersHolds(s.excluded, ms[n].owners, p);
      AddOwnersHolds(s.selected, ms[n].owners, p);
      AddOwnersHolds(s.ambiguous, ms[n].owners, p);
      if |ms[n].owners| == 1 { assert ms[n].owners == [ms[n].owners[0]]; }
    }
  }

  lemma LastMention(tokens: seq<Token>, ms: seq<Mention>, p: Profile)
    requires ms != []
    ensures var n := |ms| - 1;
            && (ExcludedBy(tokens, ms, p)
                <==> ExcludedBy(tokens, ms[..n], p) || (Excluded(tokens, ms[n]) && p in ms[n].owners))
            && (SelectedBy(tokens, ms, p)
                <==> SelectedBy(tokens, ms[..n], p) || (!Excluded(tokens, ms[n]) && ms[n].owners == [p]))
            && (SharedIn(tokens, ms, p) <==>
                  SharedIn(tokens, ms[..n], p)
                    || (!Excluded(tokens, ms[n]) && |ms[n].owners| != 1 && p in ms[n].owners))
  {
    var n := |ms| - 1;
    assert forall k :: 0 <= k < n ==> ms[..n][k] == ms[k];
  }

  lemma {:induction false} SortKeeps(ms: seq<Mention>, m: Mention)
    ensures m in SortByStart(ms) <==> m in ms
  {
    if ms != [] {
      var n := |ms| - 1;
      SortKeeps(ms[..n], m);
      InsertStartKeeps(ms[n], SortByStart(ms[..n]), m);
      assert ms == ms[..n] + [ms[n]];
    }
  }

  lemma {:induction false} InsertStartKeeps(x: Mention, sorted: seq<Mention>, m: Mention)
    ensures m in InsertByStart(x, sorted) <==> m == x || m in sorted
  {
    if !(sorted == [] || sorted[|sorted| - 1].start <= x.start) {
      var n := |sorted| - 1;
      InsertStartKeeps(x, sorted[..n], m);
      assert sorted == sorted[..n] + [sorted[n]];
    }
  }

  /** Only the set of mentions matters, not the order they are taken in. */
  lemma SameMentionsSameSides(tokens: seq<Token>, a: seq<Mention>, b: seq<Mention>, p: Profile)
    requires forall m :: m in a <==> m in b
    ensures ExcludedBy(tokens, a, p) ==> ExcludedBy(tokens, b, p)
    ensures SelectedBy(tokens, a, p) ==> SelectedBy(tokens, b, p)
    ensures SharedIn(tokens, a, p) ==> SharedIn(tokens, b, p)
  {
    if ExcludedBy(tokens, a, p) {
      var k :| 0 <= k < |a| && Excluded(tokens, a[k]) && p in a[k].owners;
      assert a[k] in b;
    }
    if SelectedBy(tokens, a, p) {
      var k :| 0 <= k < |a| && !Excluded(tokens, a[k]) && a[k].owners == [p];
      assert a[k] in b;
    }
    if SharedIn(tokens, a, p) {
      var k :| 0 <= k < |a| && !Excluded(tokens, a[k]) && |a[k].owners| != 1 && p in a[k].owners;
      assert a[k] in b;
    }
  }

  lemma SidesExactly(tokens: seq<Token>, ms: seq<Mention>, p: Profile)
    ensures var s := Classify(tokens, SortByStart(ms));
            && (p in s.excluded <==> ExcludedBy(tokens, ms, p))
            && (p in s.selected <==> SelectedBy(tokens, ms, p))
            && (p in s.ambiguous <==> SharedIn(tokens, ms, p))
  {
    ClassifyExactly(tokens, SortByStart(ms), p);
    forall m ensures m in SortByStart(ms) <==> m in ms { SortKeeps(ms, m); }
    SameMentionsSameSides(tokens, SortByStart(ms), ms, p);
    SameMentionsSameSides(tokens, ms, SortByStart(ms), p);
  }

  lemma {:induction false} OutsideHolds(profiles: seq<Profile>, excluded: seq<Profile>, p: Profile)
    ensures p in Outside(profiles, excluded) <==> p in profiles && !HasAccount(excluded, p.accountId)
  {
    if profiles != [] {
      var n := |profiles| - 1;
      OutsideHolds(profiles[..n], excluded, p);
      assert profiles == profiles[..n] + [profiles[n]];
    }
  }

  lemma {:induction false} UniqueHolds(profiles: seq<Profile>, p: Profile)
    ensures p in UniqueAccounts(profiles) ==> p in profiles
    ensures p in profiles ==> HasAccount(UniqueAccounts(profiles), p.accountId)
  {
    if profiles != [] {
      var n := |profiles| - 1;
      UniqueHolds(profiles[..n], p);
      assert profiles == profiles[..n] + [profiles[n]];
      var rest, all := UniqueAccounts(profiles[..n]), UniqueAccounts(profiles);
      if p in profiles {
        if HasAccount(rest, p.accountId) {
          var k :| 0 <= k < |rest| && rest[k].accountId == p.accountId;
          assert all[k].accountId == p.accountId;
        } else {
          assert all[|all| - 1] == p;
        }
      }
    }
  }

  // --------------------------------------------------------------- soundness

  /** What a profile in an answer list owes its place to, whoever else is in it. */
  lemma DecideExactly(tokens: seq<Token>, available: seq<Profile>, ms: seq<Mention>, request: bool, p: Profile)
    ensures var r := Decide(tokens, available, ms, request);
            && (p in r.excluded <==> ExcludedBy(tokens, ms, p))
            && (p in r.matched || p in r.ambiguous ==> !HasAccount(r.excluded, p.accountId))
            && (r.status == Matched ==>
                  (p in r.matched <==> SelectedBy(tokens, ms, p) && !HasAccount(r.excluded, p.accountId)))
            && (r.status == SoleProfile ==>
                  |r.matched| == 1
                  && (p in r.matched <==> p in available && !HasAccount(r.excluded, p.accountId)))
            && (p in r.ambiguous ==> SharedIn(tokens, ms, p) || SelectedBy(tokens, ms, p) || p in available)
            && (r.matched != [] ==> r.status == Matched || r.status == SoleProfile)
            && (SharedIn(tokens, ms, p) && !HasAccount(r.excluded, p.accountId) ==>
                  r.status == ClarificationRequired && HasAccount(r.ambiguous, p.accountId))
  {
    var s := Classify(tokens, SortByStart(ms));
    SidesExactly(tokens, ms, p);
    OutsideHolds(s.selected, s.excluded, p);
    OutsideHolds(s.ambiguous, s.excluded, p);
    OutsideHolds(available, s.excluded, p);
    UniqueHolds(Outside(s.selected, s.excluded) + Outside(s.ambiguous, s.excluded), p);
  }

  ghost predicate DistinctNames(available: seq<Profile>) {
    forall p, q :: p in available && q in available && p.name == q.name ==> p == q
  }

  /** The words are the profile's label, or an alias of it, and no other profile's. */
  ghost predicate OwnWords(available: seq<Profile>, p: Profile, words: Words) {
    || (words == p.name && forall q :: q in available && q.name == words ==> q == p)
    || (HasAlias(p, words) && forall q :: q in available && HasAlias(q, words) ==> q == p)
  }

  /** A mention that says, outside every exclusion, words that are this profile's alone. */
  ghost predicate NamesAlone(tokens: seq<Token>, available: seq<Profile>, m: Mention, p: Profile, words: Words) {
    && m.owners == [p] && !Excluded(tokens, m)
    && words != [] && m.end == m.start + |words| && MatchesAt(tokens, words, m.start) && OwnWords(available, p, words)
  }

  /** The owners of a mention are available, and what it says tells which. */
  lemma MentionOwners(tokens: seq<Token>, available: seq<Profile>, aliases: seq<Pattern>, m: Mention)
    returns (words: Words)
    requires AliasesOk(available, aliases) && m in Mentions(tokens, available, aliases)
    ensures words != [] && m.end == m.start + |words| && MatchesAt(tokens, words, m.start)
    ensures m.owners != [] && forall p :: p in m.owners ==> p in available && (p.name == words || HasAlias(p, words))
    ensures (|m.owners| == 1 && m.owners[0].name == words)
            || (forall p :: p in m.owners <==> p in available && HasAlias(p, words))
  {
    MentionsOk(tokens, available, aliases);
    var ms := Mentions(tokens, available, aliases);
    var ps := LabelPatterns(available);
    var x :| 0 <= x < |ms| && ms[x] == m;
    assert ComesFrom(tokens, ps + aliases, ms, x);
    var k :| 0 <= k < |ps + aliases| && OccurrenceOf(tokens, (ps + aliases)[k], m);
    words := (ps + aliases)[k].words;
    if k < |ps| {
      var p := LabelOwner(available, ps[k]);
    } else {
      assert AliasOk(available, aliases[k - |ps|]);
    }
  }

  /** Accepted spans never overlap; every list is drawn from the available profiles. */
  lemma ResolverDrawsFromAvailable(tokens: seq<Token>, available: seq<Profile>, aliases: seq<Pattern>, cancels: bool,
                                   require: Option<bool>, p: Profile)
    requires AliasesOk(available, aliases)
    ensures Disjoint(Mentions(tokens, available, aliases))
    ensures var r := Resolve(tokens, available, aliases, cancels, require);
            p in r.matched || p in r.excluded || p in r.ambiguous ==> p in available
  {
    MentionsOk(tokens, available, aliases);
    var ms := Mentions(tokens, available, aliases);
    var request := if require.Some? then require.value else IsAccountRequest(tokens);
    DecideExactly(tokens, available, ms, request, p);
    if exists m :: m in ms && p in m.owners {
      var m :| m in ms && p in m.owners;
      var words := MentionOwners(tokens, available, aliases, m);
    }
  }

  /** An account mentioned in the scope of an exclusion, anywhere in the message, is
      neither matched nor offered, whatever else is said about it. */
  lemma ExcludedNeverMatched(tokens: seq<Token>, available: seq<Profile>, aliases: seq<Pattern>, cancels: bool,
                             require: Option<bool>, m: Mention, owner: Profile, p: Profile)
    requires m in Mentions(tokens, available, aliases) && Excluded(tokens, m) && owner in m.owners
    requires p.accountId == owner.accountId
    ensures var r := Resolve(tokens, available, aliases, cancels, require); p !in r.matched && p !in r.ambiguous
  {
    var ms := Mentions(tokens, available, aliases);
    var request := if require.Some? then require.value else IsAccountRequest(tokens);
    DecideExactly(tokens, available, ms, request, p);
    DecideExactly(tokens, available, ms, request, owner);
    var x :| 0 <= x < |ms| && ms[x] == m;
    var r := Decide(tokens, available, ms, request);
    assert owner in r.excluded;
    var k :| 0 <= k < |r.excluded| && r.excluded[k] == owner;
    assert HasAccount(r.excluded, p.accountId);
  }

  /** With distinct labels, an account is matched exactly when the message, outside every
      exclusion, says words that are its alone, no mention excludes it, and nothing it
      says is left ambiguous. */
  lemma MatchedExactly(tokens: seq<Token>, available: seq<Profile>, aliases: seq<Pattern>, require: Option<bool>,
                       p: Profile)
    requires AliasesOk(available, aliases) && DistinctNames(available)
    ensures var r := Resolve(tokens, available, aliases, false, require);
            r.status == Matched ==>
              (p in r.matched <==>
                 (exists m, words ::
                    m in Mentions(tokens, available, aliases) && NamesAlone(tokens, available, m, p, words))
                 && !HasAccount(r.excluded, p.accountId))
  {
    var r := Resolve(tokens, available, aliases, false, require);
    if r.status == Matched {
      var ms := Mentions(tokens, available, aliases);
      var request := if require.Some? then require.value else IsAccountRequest(tokens);
      DecideExactly(tokens, available, ms, request, p);
      if SelectedBy(tokens, ms, p) {
        var k :| 0 <= k < |ms| && !Excluded(tokens, ms[k]) && ms[k].owners == [p];
        var words := MentionOwners(tokens, available, aliases, ms[k]);
        assert NamesAlone(tokens, available, ms[k], p, words);
      }
      if m, words :| m in ms && NamesAlone(tokens, available, m, p, words) {
        var k :| 0 <= k < |ms| && ms[k] == m;
      }
    }
  }

  // ------------------------------------------------------- the order of offers

  lemma SubseqInLabelOrder(a: seq<Profile>, b: seq<Profile>)
    requires Subseq(a, b) && InLabelOrder(b)
    ensures InLabelOrder(a)
    decreases |b|
  {
    if a != [] {
      var a', b' := a[..|a| - 1], b[..|b| - 1];
      if a[|a| - 1] == b[|b| - 1] {
        SubseqInLabelOrder(a', b');
        forall j | 0 <= j < |a'| ensures !Before(a[|a| - 1].folded, a'[j].folded) {
          SubseqMember(a', b', a'[j]);
          var k :| 0 <= k < |b'| && b'[k] == a'[j];
        }
      } else {
        SubseqInLabelOrder(a, b');
      }
    }
  }

  lemma {:induction false} AddedAreSubseq(owners: seq<Profile>)
    ensures Subseq(AddOwners([], owners), owners)
  {
    if owners != [] {
      var n := |owners| - 1;
      AddedAreSubseq(owners[..n]);
      var added := AddOwners([], owners[..n]);
      assert owners == owners[..n] + [owners[n]];
      SubseqAppend(added, owners[..n], owners[n]);
      if owners[n] in added && added[|added| - 1] == owners[n] { SubseqDropLast(added, owners[..n]); }
    }
  }

  lemma {:induction false} OutsideIsSubseq(profiles: seq<Profile>, excluded: seq<Profile>)
    ensures Subseq(Outside(profiles, excluded), profiles)
  {
    if profiles != [] {
      var n := |profiles| - 1;
      OutsideIsSubseq(profiles[..n], excluded);
      var rest := Outside(profiles[..n], excluded);
      assert profiles == profiles[..n] + [profiles[n]];
      SubseqAppend(rest, profiles[..n], profiles[n]);
      if rest != [] && rest[|rest| - 1] == profiles[n] { SubseqDropLast(rest, profiles[..n]); }
    }
  }

  lemma {:induction false} UniqueIsSubseq(profiles: seq<Profile>)
    ensures Subseq(UniqueAccounts(profiles), profiles)
  {
    if profiles != [] {
      var n := |profiles| - 1;
      UniqueIsSubseq(profiles[..n]);
      var rest := UniqueAccounts(profiles[..n]);
      assert profiles == profiles[..n] + [profiles[n]];
      SubseqAppend(rest, profiles[..n], profiles[n]);
      if rest != [] && rest[|rest| - 1] == profiles[n] { SubseqDropLast(rest, profiles[..n]); }
    }
  }

  /** When the message's one mention is a shared alias outside every exclusion, the resolver
      asks which of its owners is meant, and offers them in the order of their labels. */
  lemma OffersInLabelOrder(tokens: seq<Token>, available: seq<Profile>, aliases: seq<Pattern>, require: Option<bool>,
                           m: Mention)
    requires AliasesOk(available, aliases) && available != []
    requires Mentions(tokens, available, aliases) == [m] && !Excluded(tokens, m) && |m.owners| > 1
    ensures var r := Resolve(tokens, available, aliases, false, require);
            && r.status == ClarificationRequired && InLabelOrder(r.ambiguous) && r.ambiguous != []
            && forall p :: p in r.ambiguous ==> p in m.owners
  {
    SharedOwnersInOrder(tokens, available, aliases, m);
    assert [m][..0] == [] && SortByStart([m]) == [m];
    var owners := AddOwners([], m.owners);
    assert Classify(tokens, [m]) == Sides([], [], owners);
    var offered := Outside(owners, []);
    assert [] + offered == offered;
    AddedAreSubseq(m.owners);
    SubseqInLabelOrder(owners, m.owners);
    OutsideIsSubseq(owners, []);
    SubseqInLabelOrder(offered, owners);
    UniqueIsSubseq(offered);
    SubseqInLabelOrder(UniqueAccounts(offered), offered);
    OwnersOffered(m.owners);
  }

  lemma SharedOwnersInOrder(tokens: seq<Token>, available: seq<Profile>, aliases: seq<Pattern>, m: Mention)
    requires AliasesOk(available, aliases) && m in Mentions(tokens, available, aliases) && |m.owners| > 1
    ensures InLabelOrder(m.owners)
  {
    MentionsOk(tokens, available, aliases);
    var ms := Mentions(tokens, available, aliases);
    var ps := LabelPatterns(available);
    var x :| 0 <= x < |ms| && ms[x] == m;
    assert ComesFrom(tokens, ps + aliases, ms, x);
    var k :| 0 <= k < |ps + aliases| && OccurrenceOf(tokens, (ps + aliases)[k], m);
    if k < |ps| {
      var p := LabelOwner(available, ps[k]);
    } else {
      assert AliasOk(available, aliases[k - |ps|]);
    }
  }

  lemma OwnersOffered(owners: seq<Profile>)
    requires owners != []
    ensures var offered := UniqueAccounts(Outside(AddOwners([], owners), []));
            offered != [] && Outside(AddOwners([], owners), []) != [] && forall p :: p in offered ==> p in owners
  {
    var added := AddOwners([], owners);
    AddOwnersHolds([], owners, owners[0]);
    OutsideHolds(added, [], owners[0]);
    UniqueHolds(Outside(added, []), owners[0]);
    forall p | p in UniqueAccounts(Outside(added, [])) ensures p in owners {
      UniqueHolds(Outside(added, []), p);
      OutsideHolds(added, [], p);
      AddOwnersHolds([], owners, p);
    }
  }
}
