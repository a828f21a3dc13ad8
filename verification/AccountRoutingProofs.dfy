/** The resolver names only accounts the message names, and never an excluded one. */
module AccountRoutingProofs {
  import opened AccountRouting

  // -------------------------------------------------------------- the claims

  ghost predicate Apart(ms: seq<Mention>, i: int, j: int) {
    0 <= i < j < |ms| ==> !Overlap(ms[i], ms[j]) && !Overlap(ms[j], ms[i])
  }

  ghost predicate Disjoint(ms: seq<Mention>) {
    forall i, j {:trigger Apart(ms, i, j)} :: Apart(ms, i, j)
  }

  /** The mention is an occurrence of the pattern. */
  predicate OccurrenceOf(tokens: seq<Token>, p: Pattern, m: Mention) {
    p.words != [] && m.owners == p.owners && m.end == m.start + |p.words| && MatchesAt(tokens, p.words, m.start)
  }

  ghost predicate From(tokens: seq<Token>, patterns: seq<Pattern>, m: Mention) {
    exists k :: 0 <= k < |patterns| && OccurrenceOf(tokens, patterns[k], m)
  }

  ghost predicate ComesFrom(tokens: seq<Token>, patterns: seq<Pattern>, ms: seq<Mention>, i: int) {
    0 <= i < |ms| ==> From(tokens, patterns, ms[i])
  }

  ghost predicate AllFrom(tokens: seq<Token>, patterns: seq<Pattern>, ms: seq<Mention>) {
    forall i {:trigger ComesFrom(tokens, patterns, ms, i)} :: ComesFrom(tokens, patterns, ms, i)
  }

  lemma ClaimOneKeeps(tokens: seq<Token>, patterns: seq<Pattern>, ms: seq<Mention>, m: Mention)
    requires Disjoint(ms) && AllFrom(tokens, patterns, ms) && From(tokens, patterns, m)
    ensures Disjoint(ClaimOne(ms, m)) && AllFrom(tokens, patterns, ClaimOne(ms, m)) && ms <= ClaimOne(ms, m)
    ensures m.start < m.end ==> OverlapsAny(m, ClaimOne(ms, m))
  {
    var r := ClaimOne(ms, m);
    forall i, j ensures Apart(r, i, j) { assert Apart(ms, i, j); }
    forall i ensures ComesFrom(tokens, patterns, r, i) { assert ComesFrom(tokens, patterns, ms, i); }
    if r != ms { assert r[|ms|] == m; }
  }

  /** `i` is one of the matches a left-to-right search from `from` reports. */
  predicate FoundAt(tokens: seq<Token>, words: Words, from: nat, i: nat)
    requires words != []
    decreases |tokens| - from
  {
    if from + |words| > |tokens| then false
    else if MatchesAt(tokens, words, from) then i == from || FoundAt(tokens, words, from + |words|, i)
    else FoundAt(tokens, words, from + 1, i)
  }

  ghost predicate Covered(tokens: seq<Token>, p: Pattern, from: nat, ms: seq<Mention>, i: nat)
    requires p.words != []
  {
    FoundAt(tokens, p.words, from, i) ==> OverlapsAny(Mention(i, i + |p.words|, p.owners), ms)
  }

  lemma OverlapsMore(m: Mention, a: seq<Mention>, b: seq<Mention>)
    requires OverlapsAny(m, a) && a <= b
    ensures OverlapsAny(m, b)
  {
    var k :| 0 <= k < |a| && Overlap(m, a[k]);
    assert b[k] == a[k];
  }

  lemma {:induction false} ClaimPatternKeeps(tokens: seq<Token>, patterns: seq<Pattern>, p: Pattern, from: nat,
                                             ms: seq<Mention>)
    requires p.words != [] && p in patterns && Disjoint(ms) && AllFrom(tokens, patterns, ms)
    ensures var r := ClaimPattern(tokens, p, from, ms);
            Disjoint(r) && AllFrom(tokens, patterns, r) && ms <= r
    ensures forall i: nat {:trigger Covered(tokens, p, from, ClaimPattern(tokens, p, from, ms), i)} ::
              Covered(tokens, p, from, ClaimPattern(tokens, p, from, ms), i)
    decreases |tokens| - from
  {
    if from + |p.words| > |tokens| {
    } else if MatchesAt(tokens, p.words, from) {
      var m := Mention(from, from + |p.words|, p.owners);
      var k :| 0 <= k < |patterns| && patterns[k] == p;
      assert OccurrenceOf(tokens, patterns[k], m);
      ClaimOneKeeps(tokens, patterns, ms, m);
      var claimed := ClaimOne(ms, m);
      ClaimPatternKeeps(tokens, patterns, p, from + |p.words|, claimed);
      var r := ClaimPattern(tokens, p, from, ms);
      OverlapsMore(m, claimed, r);
      forall i: nat ensures Covered(tokens, p, from, r, i) { assert Covered(tokens, p, from + |p.words|, r, i); }
    } else {
      ClaimPatternKeeps(tokens, patterns, p, from + 1, ms);
      var r := ClaimPattern(tokens, p, from, ms);
      forall i: nat ensures Covered(tokens, p, from, r, i) { assert Covered(tokens, p, from + 1, r, i); }
    }
  }

  lemma MorePatterns(tokens: seq<Token>, a: seq<Pattern>, b: seq<Pattern>, ms: seq<Mention>)
    requires AllFrom(tokens, a, ms) && forall p :: p in a ==> p in b
    ensures AllFrom(tokens, b, ms)
  {
    forall i ensures ComesFrom(tokens, b, ms, i) {
      assert ComesFrom(tokens, a, ms, i);
      if 0 <= i < |ms| {
        var k :| 0 <= k < |a| && OccurrenceOf(tokens, a[k], ms[i]);
        assert a[k] in b;
      }
    }
  }

  /** Accepted spans are pairwise disjoint, each an occurrence of a pattern. */
  lemma {:induction false} ClaimAllKeeps(tokens: seq<Token>, patterns: seq<Pattern>, earlier: seq<Pattern>,
                                         ms: seq<Mention>)
    requires Disjoint(ms) && AllFrom(tokens, earlier, ms)
    ensures var r := ClaimAll(tokens, patterns, ms);
            Disjoint(r) && AllFrom(tokens, earlier + patterns, r) && ms <= r
    decreases |patterns|
  {
    if patterns == [] {
      assert earlier + patterns == earlier;
    } else {
      var n := |patterns| - 1;
      ClaimAllKeeps(tokens, patterns[..n], earlier, ms);
      var before := ClaimAll(tokens, patterns[..n], ms);
      MorePatterns(tokens, earlier + patterns[..n], earlier + patterns, before);
      if patterns[n].words != [] {
        assert (earlier + patterns)[|earlier| + n] == patterns[n];
        ClaimPatternKeeps(tokens, earlier + patterns, patterns[n], 0, before);
      }
    }
  }

  /** Nothing that was recognised is dropped: every match of every pattern overlaps an
      accepted span, be it its own. */
  lemma {:induction false} EveryMatchCovered(tokens: seq<Token>, patterns: seq<Pattern>, earlier: seq<Pattern>,
                                             ms: seq<Mention>, k: nat, i: nat)
    requires Disjoint(ms) && AllFrom(tokens, earlier, ms)
    requires k < |patterns| && patterns[k].words != [] && FoundAt(tokens, patterns[k].words, 0, i)
    ensures OverlapsAny(Mention(i, i + |patterns[k].words|, patterns[k].owners), ClaimAll(tokens, patterns, ms))
    decreases |patterns|
  {
    var n := |patterns| - 1;
    ClaimAllKeeps(tokens, patterns[..n], earlier, ms);
    var before := ClaimAll(tokens, patterns[..n], ms);
    MorePatterns(tokens, earlier + patterns[..n], earlier + patterns, before);
    var r := ClaimAll(tokens, patterns, ms);
    if patterns[n].words != [] {
      assert (earlier + patterns)[|earlier| + n] == patterns[n];
      ClaimPatternKeeps(tokens, earlier + patterns, patterns[n], 0, before);
      assert Covered(tokens, patterns[n], 0, ClaimPattern(tokens, patterns[n], 0, before), i);
    }
    if k < n {
      EveryMatchCovered(tokens, patterns[..n], earlier, ms, k, i);
      OverlapsMore(Mention(i, i + |patterns[k].words|, patterns[k].owners), before, r);
    }
  }

  // ----------------------------------------------------- labels, longest first

  ghost predicate AtLeastAsLong(ps: seq<Pattern>, j: int, k: int) {
    0 <= j < k < |ps| ==> Length(ps[j].words) >= Length(ps[k].words)
  }

  ghost predicate LongestFirst(ps: seq<Pattern>) {
    forall j, k {:trigger AtLeastAsLong(ps, j, k)} :: AtLeastAsLong(ps, j, k)
  }

  ghost predicate AllAtLeast(ps: seq<Pattern>, n: nat) {
    forall j :: 0 <= j < |ps| ==> Length(ps[j].words) >= n
  }

  lemma {:induction false} InsertAtLeast(p: Pattern, sorted: seq<Pattern>, n: nat)
    requires AllAtLeast(sorted, n) && Length(p.words) >= n
    ensures AllAtLeast(InsertByLength(p, sorted), n)
  {
    if !(sorted == [] || Length(sorted[|sorted| - 1].words) >= Length(p.words)) {
      InsertAtLeast(p, sorted[..|sorted| - 1], n);
    }
  }

  lemma {:induction false} InsertKeepsOrder(p: Pattern, sorted: seq<Pattern>)
    requires LongestFirst(sorted)
    ensures LongestFirst(InsertByLength(p, sorted))
  {
    var r := InsertByLength(p, sorted);
    if sorted == [] || Length(sorted[|sorted| - 1].words) >= Length(p.words) {
      forall j, k ensures AtLeastAsLong(r, j, k) {
        assert AtLeastAsLong(sorted, j, k) && AtLeastAsLong(sorted, j, |sorted| - 1);
      }
    } else {
      var n := |sorted| - 1;
      forall j, k ensures AtLeastAsLong(sorted[..n], j, k) { assert AtLeastAsLong(sorted, j, k); }
      InsertKeepsOrder(p, sorted[..n]);
      forall j | 0 <= j < n ensures Length(sorted[..n][j].words) >= Length(sorted[n].words) {
        assert AtLeastAsLong(sorted, j, n);
      }
      InsertAtLeast(p, sorted[..n], Length(sorted[n].words));
      var front := InsertByLength(p, sorted[..n]);
      forall j, k ensures AtLeastAsLong(r, j, k) { assert AtLeastAsLong(front, j, k); }
    }
  }

  lemma {:induction false} LabelsInOrder(available: seq<Profile>)
    ensures LongestFirst(LabelPatterns(available))
  {
    if available != [] {
      var n := |available| - 1;
      LabelsInOrder(available[..n]);
      InsertKeepsOrder(Pattern(available[n].name, [available[n]]), LabelPatterns(available[..n]));
    }
  }

  lemma {:induction false} InsertedOnly(p: Pattern, sorted: seq<Pattern>, q: Pattern)
    ensures q in InsertByLength(p, sorted) <==> q == p || q in sorted
  {
    if !(sorted == [] || Length(sorted[|sorted| - 1].words) >= Length(p.words)) {
      InsertedOnly(p, sorted[..|sorted| - 1], q);
      assert sorted == sorted[..|sorted| - 1] + [sorted[|sorted| - 1]];
    }
  }

  /** A label pattern is that of an available profile. */
  lemma {:induction false} LabelOwner(available: seq<Profile>, q: Pattern) returns (p: Profile)
    requires q in LabelPatterns(available)
    ensures p in available && q == Pattern(p.name, [p])
  {
    var n := |available| - 1;
    InsertedOnly(Pattern(available[n].name, [available[n]]), LabelPatterns(available[..n]), q);
    if q in LabelPatterns(available[..n]) {
      p := LabelOwner(available[..n], q);
    } else {
      p := available[n];
    }
  }

  /** The match of a pattern overlaps a mention claimed by then, that is, by a pattern not
      after it. */
  lemma MatchGivesWay(tokens: seq<Token>, ps: seq<Pattern>, k: nat, i: nat) returns (j: nat, m: Mention)
    requires k < |ps| && ps[k].words != [] && FoundAt(tokens, ps[k].words, 0, i)
    ensures m in ClaimAll(tokens, ps[..k + 1], []) && Overlap(Mention(i, i + |ps[k].words|, ps[k].owners), m)
    ensures j <= k && OccurrenceOf(tokens, ps[j], m)
  {
    var upto := ps[..k + 1];
    EveryMatchCovered(tokens, upto, [], [], k, i);
    ClaimAllKeeps(tokens, upto, [], []);
    assert [] + upto == upto;
    var r := ClaimAll(tokens, upto, []);
    var x :| 0 <= x < |r| && Overlap(Mention(i, i + |ps[k].words|, ps[k].owners), r[x]);
    m := r[x];
    assert ComesFrom(tokens, upto, r, x);
    j :| 0 <= j < |upto| && OccurrenceOf(tokens, upto[j], m);
  }

  /** A label match that is not accepted as it stands gave way to a mention of a label at
      least as long. */
  lemma LongerLabelsFirst(tokens: seq<Token>, available: seq<Profile>, k: nat, i: nat) returns (j: nat, m: Mention)
    requires var ps := LabelPatterns(available); k < |ps| && ps[k].words != [] && FoundAt(tokens, ps[k].words, 0, i)
    ensures var ps := LabelPatterns(available);
            && m in ClaimAll(tokens, ps, []) && Overlap(Mention(i, i + |ps[k].words|, ps[k].owners), m)
            && j <= k && OccurrenceOf(tokens, ps[j], m) && Length(ps[j].words) >= Length(ps[k].words)
  {
    var ps := LabelPatterns(available);
    j, m := MatchGivesWay(tokens, ps, k, i);
    LabelsInOrder(available);
    assert AtLeastAsLong(ps, j, k);
    PrefixClaimsKept(tokens, ps, k + 1);
  }

  lemma {:induction false} PrefixClaimsKept(tokens: seq<Token>, ps: seq<Pattern>, n: nat)
    requires n <= |ps|
    ensures ClaimAll(tokens, ps[..n], []) <= ClaimAll(tokens, ps, [])
    decreases |ps| - n
  {
    if n < |ps| {
      PrefixClaimsKept(tokens, ps, n + 1);
      assert ps[..n + 1][..n] == ps[..n];
      ClaimAllKeeps(tokens, ps[..n], [], []);
      assert [] + ps[..n] == ps[..n];
      if ps[n].words != [] {
        MorePatterns(tokens, ps[..n], ps, ClaimAll(tokens, ps[..n], []));
        ClaimPatternKeeps(tokens, ps, ps[n], 0, ClaimAll(tokens, ps[..n], []));
      }
    } else {
      assert ps[..n] == ps;
    }
  }

  /** The mentions of a message: disjoint, and each the occurrence of a label or alias. */
  lemma MentionsOk(tokens: seq<Token>, available: seq<Profile>, aliases: seq<Pattern>)
    ensures var ms := Mentions(tokens, available, aliases);
            Disjoint(ms) && AllFrom(tokens, LabelPatterns(available) + aliases, ms)
  {
    var ps := LabelPatterns(available);
    ClaimAllKeeps(tokens, ps, [], []);
    assert [] + ps == ps;
    ClaimAllKeeps(tokens, aliases, ps, ClaimAll(tokens, ps, []));
  }
}
