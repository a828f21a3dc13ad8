/** Which connected accounts a message names.  A message is a sequence of lower-case
    words and the separators `, ; .`; a label or alias is a non-empty sequence of words. */
module AccountRouting {
  import opened Collections

  type Words = seq<string>

  datatype Token = Word(text: string) | Separator

  /** A profile with its label case-folded (`folded`), the words of the label (`name`), and those of
      the label's slash-separated parts. */
  datatype Profile = Profile(accountId: string, folded: string, name: Words, parts: seq<Words>, calendars: seq<string>)

  datatype Status = CancelledRequest | NoProfiles | ClarificationRequired | Matched | SoleProfile | NotAccountRequest

  datatype Resolution = Resolution(
    status: Status,
    matched: seq<Profile>,
    excluded: seq<Profile>,
    ambiguous: seq<Profile>,
    explicitMatch: bool,
    accountRequest: bool)

  // ------------------------------------------------------------------- spans

  /** The words `pattern` claims from `start` to `end`, for `owners`. */
  datatype Mention = Mention(start: nat, end: nat, owners: seq<Profile>)

  datatype Pattern = Pattern(words: Words, owners: seq<Profile>)

  predicate Overlap(a: Mention, b: Mention) {
    a.start < b.end && b.start < a.end
  }

  predicate MatchesAt(tokens: seq<Token>, words: Words, i: nat) {
    i + |words| <= |tokens| && forall k :: 0 <= k < |words| ==> tokens[i + k] == Word(words[k])
  }

  predicate OverlapsAny(m: Mention, mentions: seq<Mention>) {
    exists k :: 0 <= k < |mentions| && Overlap(m, mentions[k])
  }

  function ClaimOne(mentions: seq<Mention>, m: Mention): seq<Mention> {
    if OverlapsAny(m, mentions) then mentions else mentions + [m]
  }

  /** Left to right from `from`; after a match the search goes on behind it, whether or
      not the span was still free. */
  function ClaimPattern(tokens: seq<Token>, p: Pattern, from: nat, mentions: seq<Mention>): seq<Mention>
    requires p.words != []
    decreases |tokens| - from
  {
    if from + |p.words| > |tokens| then mentions
    else if MatchesAt(tokens, p.words, from) then
      ClaimPattern(tokens, p, from + |p.words|, ClaimOne(mentions, Mention(from, from + |p.words|, p.owners)))
    else ClaimPattern(tokens, p, from + 1, mentions)
  }

  /** One pattern after the other, the first having first claim; empty ones are skipped. */
  function ClaimAll(tokens: seq<Token>, patterns: seq<Pattern>, mentions: seq<Mention>): seq<Mention> {
    if patterns == [] then mentions
    else
      var before := ClaimAll(tokens, patterns[..|patterns| - 1], mentions);
      var last := patterns[|patterns| - 1];
      if last.words == [] then before else ClaimPattern(tokens, last, 0, before)
  }

  // ---------------------------------------------------------------- patterns

  /** The length of the words joined by single spaces. */
  function Length(words: Words): nat {
    if words == [] then 0 else if |words| == 1 then |words[0]| else |words[0]| + 1 + Length(words[1..])
  }

  /** Insert behind every pattern that is at least as long. */
  function InsertByLength(p: Pattern, sorted: seq<Pattern>): (r: seq<Pattern>)
    ensures |r| == |sorted| + 1
  {
    if sorted == [] || Length(sorted[|sorted| - 1].words) >= Length(p.words) then sorted + [p]
    else InsertByLength(p, sorted[..|sorted| - 1]) + [sorted[|sorted| - 1]]
  }

  /** Full labels, longest first, earlier profiles first among equals. */
  function LabelPatterns(available: seq<Profile>): seq<Pattern> {
    if available == [] then []
    else
      var last := available[|available| - 1];
      InsertByLength(Pattern(last.name, [last]), LabelPatterns(available[..|available| - 1]))
  }

  /** A word of at least three letters of the label, or a proper part of it. */
  predicate HasAlias(p: Profile, alias: Words) {
    || (exists k :: 0 <= k < |p.name| && |p.name[k]| >= 3 && alias == [p.name[k]])
    || (alias in p.parts && alias != [] && alias != p.name)
  }

  /** Sorted by label; profiles with equal labels come in any order. */
  ghost predicate InLabelOrder(owners: seq<Profile>) {
    forall j, k :: 0 <= j < k < |owners| ==> !Before(owners[k].folded, owners[j].folded)
  }

  /** `aliases` lists every alias some profile has, with all the profiles that have it in
      the order of their labels, longest alias first.  Ties are in no particular order, as the resolver collects the
      candidate aliases of a profile in a set. */
  ghost predicate AliasesOk(available: seq<Profile>, aliases: seq<Pattern>) {
    && (forall k {:trigger aliases[k]} :: 0 <= k < |aliases| ==> AliasOk(available, aliases[k]))
    && (forall p, alias {:trigger HasAlias(p, alias)} ::
          p in available && HasAlias(p, alias) ==> Listed(aliases, alias))
    && (forall j, k :: 0 <= j < k < |aliases| ==> Length(aliases[j].words) >= Length(aliases[k].words))
  }

  ghost predicate AliasOk(available: seq<Profile>, a: Pattern) {
    && a.words != [] && a.owners != [] && Distinct(a.owners) && InLabelOrder(a.owners)
    && forall p :: p in a.owners <==> p in available && HasAlias(p, a.words)
  }

  predicate Listed(aliases: seq<Pattern>, alias: Words) {
    exists k :: 0 <= k < |aliases| && aliases[k].words == alias
  }

  function Mentions(tokens: seq<Token>, available: seq<Profile>, aliases: seq<Pattern>): seq<Mention> {
    ClaimAll(tokens, aliases, ClaimAll(tokens, LabelPatterns(available), []))
  }

  // -------------------------------------------------------------- exclusions

  const EXCLUSION_WORDS := {"not", "except", "excluding", "exclude", "without"}

  /** An excluding word comes before, with no separator in between. */
  predicate InExclusion(tokens: seq<Token>, start: nat)
    requires start <= |tokens|
  {
    start > 0
    && tokens[start - 1].Word?
    && (tokens[start - 1].text in EXCLUSION_WORDS || InExclusion(tokens, start - 1))
  }

  // ---------------------------------------------------------- classification

  datatype Sides = Sides(selected: seq<Profile>, excluded: seq<Profile>, ambiguous: seq<Profile>)

  function AddOwners(target: seq<Profile>, owners: seq<Profile>): seq<Profile> {
    if owners == [] then target
    else
      var added := AddOwners(target, owners[..|owners| - 1]);
      if owners[|owners| - 1] in added then added else added + [owners[|owners| - 1]]
  }

  function Classify(tokens: seq<Token>, mentions: seq<Mention>): Sides {
    if mentions == [] then Sides([], [], [])
    else
      var s := Classify(tokens, mentions[..|mentions| - 1]);
      var m := mentions[|mentions| - 1];
      if m.start <= |tokens| && InExclusion(tokens, m.start) then s.(excluded := AddOwners(s.excluded, m.owners))
      else if |m.owners| == 1 then s.(selected := AddOwners(s.selected, m.owners))
      else s.(ambiguous := AddOwners(s.ambiguous, m.owners))
  }

  /** Sorted by position; accepted spans never share a start. */
  function InsertByStart(m: Mention, sorted: seq<Mention>): seq<Mention> {
    if sorted == [] || sorted[|sorted| - 1].start <= m.start then sorted + [m]
    else InsertByStart(m, sorted[..|sorted| - 1]) + [sorted[|sorted| - 1]]
  }

  function SortByStart(mentions: seq<Mention>): seq<Mention> {
    if mentions == [] then []
    else InsertByStart(mentions[|mentions| - 1], SortByStart(mentions[..|mentions| - 1]))
  }

  predicate HasAccount(profiles: seq<Profile>, id: string) {
    exists k :: 0 <= k < |profiles| && profiles[k].accountId == id
  }

  function Outside(profiles: seq<Profile>, excluded: seq<Profile>): seq<Profile> {
    if profiles == [] then []
    else
      var last := profiles[|profiles| - 1];
      var rest := Outside(profiles[..|profiles| - 1], excluded);
      if HasAccount(excluded, last.accountId) then rest else rest + [last]
  }

  function OrderedUnion(a: seq<Profile>, b: seq<Profile>): seq<Profile> {
    UniqueAccounts(a + b)
  }

  /** The first profile of each account. */
  function UniqueAccounts(profiles: seq<Profile>): seq<Profile> {
    if profiles == [] then []
    else
      var last := profiles[|profiles| - 1];
      var rest := UniqueAccounts(profiles[..|profiles| - 1]);
      if HasAccount(rest, last.accountId) then rest else rest + [last]
  }

  // --------------------------------------------------------------- the answer

  const ACCOUNT_TERMS := {"calendar", "calendars", "contact", "contacts", "gmail", "inbox", "schedule"}
  const MAIL_TERMS := {"email", "emails", "mail", "message", "messages"}
  const READ_TERMS := {"any", "check", "find", "latest", "list", "new", "read", "recent", "search", "show", "what"}
  const WRITE_TERMS := {"add", "compose", "create", "delete", "draft", "forward", "remove", "reply", "send", "update"}

  predicate Says(tokens: seq<Token>, terms: set<string>) {
    exists k :: 0 <= k < |tokens| && tokens[k].Word? && tokens[k].text in terms
  }

  predicate IsAccountRequest(tokens: seq<Token>) {
    !Says(tokens, WRITE_TERMS)
      && (Says(tokens, ACCOUNT_TERMS) || (Says(tokens, MAIL_TERMS) && Says(tokens, READ_TERMS)))
  }

  /** What the mentions come to. */
  function Decide(tokens: seq<Token>, available: seq<Profile>, mentions: seq<Mention>, request: bool): Resolution {
    var sides := Classify(tokens, SortByStart(mentions));
    var selected := Outside(sides.selected, sides.excluded);
    var ambiguous := Outside(sides.ambiguous, sides.excluded);
    var remaining := Outside(available, sides.excluded);
    if ambiguous != [] then
      Resolution(ClarificationRequired, [], sides.excluded, OrderedUnion(selected, ambiguous), mentions != [], true)
    else if selected != [] then Resolution(Matched, selected, sides.excluded, [], true, true)
    else if request && |remaining| == 1 then Resolution(SoleProfile, remaining, sides.excluded, [], false, true)
    else if request then Resolution(ClarificationRequired, [], sides.excluded, remaining, false, true)
    else Resolution(NotAccountRequest, [], sides.excluded, [], false, false)
  }

  /** `cancels`: the message is one of the phrases that call the request off.
      `require`: the caller's own view on whether an account is needed. */
  function Resolve(tokens: seq<Token>, available: seq<Profile>, aliases: seq<Pattern>, cancels: bool,
                   require: Option<bool>): Resolution {
    var request := if require.Some? then require.value else IsAccountRequest(tokens);
    if cancels then Resolution(CancelledRequest, [], [], [], false, false)
    else if available == [] then Resolution(NoProfiles, [], [], [], false, request)
    else Decide(tokens, available, Mentions(tokens, available, aliases), request)
  }
}
