/** What each session operation writes, in the stages and fields themselves: which turn,
    to which stage, and what stays as it was. */
module SessionEffects {
  import opened Collections
  import opened SessionContexts
  import opened Sessions

  // ------------------------------------------------------------- the stages

  /** Told by where a turn may go: any open turn may be cancelled or fail; it is completed
      after thinking, speaking or playing; each of the others has its own way in. */
  lemma LegalInto(from: Stage, to: Stage)
    ensures Legal(from, to)
            <==> match to
                 case Capturing => false
                 case Transcribing => from == Capturing
                 case Thinking => from == Capturing || from == Transcribing
                 case Synthesizing => from == Thinking
                 case PlaybackQueued => from == Synthesizing
                 case Playing => from == PlaybackQueued
                 case Completed => from == Thinking || from == Synthesizing || from == Playing
                 case Cancelled => from != Completed && from != Cancelled && from != Failed
                 case Failed => from != Completed && from != Cancelled && from != Failed
  {
  }

  predicate Over(s: Stage) {
    s == Completed || s == Cancelled || s == Failed
  }

  /** Everything about a session but its turns, its history and the time of the change. */
  ghost predicate SameElse(s: Session, s': Session) {
    && s'.clientId == s.clientId && s'.context == s.context && s'.pendingRequest == s.pendingRequest
    && s'.active == s.active
  }

  /** The store with one session changed: the others, and their order, stay. */
  ghost predicate OnlySession(st: Store, id: Id, st': Store) {
    && id in st.sessions && st'.order == st.order && st'.sessions.Keys == st.sessions.Keys
    && forall k :: k in st.sessions && k != id ==> st'.sessions[k] == st.sessions[k]
  }

  // ------------------------------------------------------------------- texts

  /** What is stored is the text without the space around it; a blank text and one of more
      than the allowed length are refused. */
  lemma CleanMessageExactly(text: string, maxChars: nat) returns (a: nat, b: nat)
    ensures a <= b <= |text|
    ensures (forall k :: 0 <= k < a ==> IsSpace(text[k])) && (forall k :: b <= k < |text| ==> IsSpace(text[k]))
    ensures a < b ==> !IsSpace(text[a]) && !IsSpace(text[b - 1])
    ensures CleanMessage(text, maxChars) == if a < b && b - a <= maxChars then Some(text[a..b]) else None
  {
    a, b := StripExactly(text);
  }

  lemma {:induction false} StripExactly(s: string) returns (a: nat, b: nat)
    ensures a <= b <= |s| && Strip(s) == s[a..b]
    ensures (forall k :: 0 <= k < a ==> IsSpace(s[k])) && (forall k :: b <= k < |s| ==> IsSpace(s[k]))
    ensures a < b ==> !IsSpace(s[a]) && !IsSpace(s[b - 1])
  {
    a := StripLeftExactly(s);
    var n := StripRightExactly(s[a..]);
    b := a + n;
    forall k | b <= k < |s| ensures IsSpace(s[k]) { assert s[k] == s[a..][k - a]; }
  }

  lemma {:induction false} StripLeftExactly(s: string) returns (a: nat)
    ensures a <= |s| && StripLeft(s) == s[a..] && forall k :: 0 <= k < a ==> IsSpace(s[k])
  {
    if s != "" && IsSpace(s[0]) {
      var rest := StripLeftExactly(s[1..]);
      a := rest + 1;
      forall k | 0 <= k < a ensures IsSpace(s[k]) { if k > 0 { assert s[k] == s[1..][k - 1]; } }
    } else {
      a := 0;
    }
  }

  lemma {:induction false} StripRightExactly(s: string) returns (n: nat)
    ensures n <= |s| && StripRight(s) == s[..n] && forall k :: n <= k < |s| ==> IsSpace(s[k])
  {
    if s != "" && IsSpace(s[|s| - 1]) {
      n := StripRightExactly(s[..|s| - 1]);
      forall k | n <= k < |s| ensures IsSpace(s[k]) { if k < |s| - 1 { assert s[k] == s[..|s| - 1][k]; } }
    } else {
      n := |s|;
    }
  }

  // --------------------------------------------------------------- identifiers

  /** The id taken is the first usable one of the first eight proposed. */
  lemma UniqueIdIsFirst(candidates: seq<Id>, existing: set<Id>, i: nat)
    requires i < |candidates| && i < 8 && candidates[i] != "" && candidates[i] !in existing
    requires forall k :: 0 <= k < i ==> candidates[k] == "" || candidates[k] in existing
    ensures UniqueId(candidates, existing) == Some(candidates[i])
  {
    FirstFrom(candidates, existing, i, 0);
  }

  lemma {:induction false} FirstFrom(candidates: seq<Id>, existing: set<Id>, i: nat, from: nat)
    requires from <= i < |candidates| && i < 8 && candidates[i] != "" && candidates[i] !in existing
    requires forall k :: from <= k < i ==> candidates[k] == "" || candidates[k] in existing
    ensures UniqueIdFrom(candidates, existing, from) == Some(candidates[i])
    decreases i - from
  {
    if from < i { FirstFrom(candidates, existing, i, from + 1); }
  }

  // ----------------------------------------------------------- cancellations

  /** Each turn that was open and is meant becomes `Cancelled`, keeping all else; every
      other turn is the same. */
  ghost predicate TurnsCancelled(s: Session, only: Option<Id>, s': Session) {
    && |s'.turns| == |s.turns|
    && forall i :: 0 <= i < |s.turns| ==>
         var (t, t') := (s.turns[i], s'.turns[i]);
         if !Over(t.stage) && (only.None? || only == Some(t.id)) then
           && t'.stage == Cancelled
           && t'.id == t.id && t'.generation == t.generation && t'.origin == t.origin && t'.failure == t.failure
         else t' == t
  }

  /** Whether a cancellation finds something to do. */
  ghost predicate Cancels(st: Store, id: Id, only: Option<Id>) {
    && id in st.sessions
    && (only.Some? ==>
          exists i :: 0 <= i < |st.sessions[id].turns| && st.sessions[id].turns[i].id == only.value
                      && !Over(st.sessions[id].turns[i].stage)
                      && forall k :: 0 <= k < i ==> st.sessions[id].turns[k].id != only.value)
  }

  /** A cancellation answers with the new generation, one above the old, and cancels the
      open turns it is for; a finished turn answers with the generation there is, and an
      unknown session or turn is an error.  Only the session named changes. */
  lemma CancelExactly(st: Store, id: Id, only: Option<Id>, now: int)
    ensures var (st', out) := Cancel(st, id, only, now);
            if Cancels(st, id, only) then
              var (s, s') := (st.sessions[id], st'.sessions[id]);
              && OnlySession(st, id, st') && SameElse(s, s') && s'.history == s.history && s'.updatedAt == now
              && out == Ok(s.generation + 1) && s'.generation == s.generation + 1
              && TurnsCancelled(s, only, s')
            else
              && st' == st
              && (id !in st.sessions ==> out == Raised(UnknownSession))
              && (id in st.sessions && only.Some? ==>
                    out == if only.value in TurnIds(st.sessions[id].turns) then Ok(st.sessions[id].generation)
                           else Raised(UnknownTurn))
  {
    if id in st.sessions {
      var s := st.sessions[id];
      if only.Some? {
        var i := FindTurn(s.turns, only.value);
        if i < |s.turns| { assert s.turns[i] in s.turns; }
        assert Cancels(st, id, only) <==> i < |s.turns| && !Over(s.turns[i].stage);
      }
      assert Cancels(st, id, only) ==> Cancel(st, id, only, now).0 == Put(st, id, CancelIn(s, only, now));
      CancelTurnsExactly(s, only, now);
    }
  }

  lemma CancelTurnsExactly(s: Session, only: Option<Id>, now: int)
    ensures TurnsCancelled(s, only, CancelIn(s, only, now))
  {
  }

  /** Closing cancels every open turn, forgets what was said and asked, and is for good. */
  lemma CloseExactly(st: Store, id: Id, now: int)
    ensures var (st', out) := CloseSession(st, id, now);
            if id in st.sessions then
              var (s, s') := (st.sessions[id], st'.sessions[id]);
              && out == Ok(()) && OnlySession(st, id, st') && TurnsCancelled(s, None, s')
              && !s'.active && s'.history == [] && s'.pendingRequest.None? && s'.updatedAt == now
              && s'.generation == s.generation + 1 && s'.clientId == s.clientId && s'.context == s.context
            else st' == st && out == Raised(UnknownSession)
  {
    CancelExactly(st, id, None, now);
  }

  // --------------------------------------------------- moving and ending turns

  /** The token is for the newest turn of a session at work, not over yet. */
  ghost predicate Current(st: Store, token: Token) {
    && token.sessionId in st.sessions
    && var s := st.sessions[token.sessionId];
    && s.active && s.generation == token.generation && s.turns != []
    && s.turns[|s.turns| - 1].id == token.turnId && !Over(s.turns[|s.turns| - 1].stage)
  }

  lemma CurrentIff(lim: Limits, st: Store, token: Token)
    requires StoreOk(lim, st)
    ensures Accepts(st, token) <==> Current(st, token)
    ensures Accepts(st, token) ==>
              var turns := st.sessions[token.sessionId].turns; FindTurn(turns, token.turnId) == |turns| - 1
  {
    AcceptsExactlyOpenToken(lim, st, token);
  }

  /** The turn the token names ended in this very stage. */
  ghost predicate EndedAs(st: Store, token: Token, stage: Stage) {
    && Over(stage) && token.sessionId in st.sessions
    && exists i :: 0 <= i < |st.sessions[token.sessionId].turns|
         && st.sessions[token.sessionId].turns[i].id == token.turnId
         && st.sessions[token.sessionId].turns[i].generation == token.generation
         && st.sessions[token.sessionId].turns[i].stage == stage
  }

  lemma EndedIff(lim: Limits, st: Store, token: Token, stage: Stage)
    requires StoreOk(lim, st)
    ensures Repeats(st, token, stage) <==> EndedAs(st, token, stage)
  {
    if token.sessionId in st.sessions {
      var turns := st.sessions[token.sessionId].turns;
      var k := FindTurn(turns, token.turnId);
      assert DistinctTurns(turns);
      forall i | 0 <= i < |turns| && turns[i].id == token.turnId ensures i == k {}
    }
  }

  /** A move of the current turn writes the stage and the code given to that turn, or
      nothing when it is there already or may not go there; a late move writes nothing and
      is answered with whether the turn ended just so. */
  lemma MoveExactly(lim: Limits, st: Store, token: Token, stage: Stage, failure: Option<string>, now: int)
    requires StoreOk(lim, st)
    ensures var (st', out) := Transition(st, token, stage, failure, now);
            if !Current(st, token) then st' == st && out == Ok(EndedAs(st, token, stage))
            else
              var (s, s') := (st.sessions[token.sessionId], st'.sessions[token.sessionId]);
              var t := s.turns[|s.turns| - 1];
              if t.stage == stage then st' == st && out == Ok(true)
              else if !Legal(t.stage, stage) then st' == st && out == Raised(IllegalTransition)
              else out == Ok(true) && Moves(st, token.sessionId, t, stage, failure, now, st')
  {
    CurrentIff(lim, st, token);
    EndedIff(lim, st, token, stage);
  }

  /** The newest turn `t` of the session has the stage and the code, all else is kept. */
  ghost predicate Moves(st: Store, id: Id, t: Turn, stage: Stage, failure: Option<string>, now: int, st': Store) {
    && OnlySession(st, id, st')
    && var (s, s') := (st.sessions[id], st'.sessions[id]);
    && SameElse(s, s') && s'.history == s.history && s'.generation == s.generation && s'.updatedAt == now
    && s.turns != [] && s'.turns == s.turns[|s.turns| - 1 := Turn(t.id, t.generation, t.origin, stage, failure)]
  }

  /** Ending a turn: completed and failed are moves like any other; cancelled raises the
      generation too, and a late one answers `false`. */
  lemma EndExactly(lim: Limits, st: Store, token: Token, stage: Stage, failure: Option<string>, now: int)
    requires StoreOk(lim, st)
    ensures var (st', out) := Terminalize(st, token, stage, failure, now);
            && (!Over(stage) ==> st' == st && out == Raised(NotTerminal))
            && (stage == Completed || stage == Failed ==> (st', out) == Transition(st, token, stage, failure, now))
            && (stage == Cancelled && !Current(st, token) ==> st' == st && out == Ok(false))
            && (stage == Cancelled && Current(st, token) ==>
                  var (s, s') := (st.sessions[token.sessionId], st'.sessions[token.sessionId]);
                  && out == Ok(true) && OnlySession(st, token.sessionId, st') && SameElse(s, s')
                  && s'.generation == s.generation + 1 && s'.history == s.history && s'.updatedAt == now
                  && TurnsCancelled(s, Some(token.turnId), s'))
  {
    CurrentIff(lim, st, token);
    if stage == Cancelled && Current(st, token) {
      var turns := st.sessions[token.sessionId].turns;
      var i := FindTurn(turns, token.turnId);
      assert Cancels(st, token.sessionId, Some(token.turnId)) by {
        assert turns[i].id == token.turnId && !Over(turns[i].stage);
      }
      CancelExactly(st, token.sessionId, Some(token.turnId), now);
    }
  }

  /** The token of a turn just cancelled: asking again to cancel is answered `true`, any
      other end `false`, and nothing is written. */
  lemma CancelledIsRecorded(lim: Limits, st: Store, token: Token, now: int, stage: Stage, failure: Option<string>,
                            later: int)
    requires StoreOk(lim, st) && Current(st, token)
    ensures var mid := Cancel(st, token.sessionId, None, now).0;
            && Transition(mid, token, stage, failure, later) == (mid, Ok(stage == Cancelled))
            && Terminalize(mid, token, Cancelled, failure, later) == (mid, Ok(false))
  {
    var mid := Cancel(st, token.sessionId, None, now).0;
    CancelKeepsOk(lim, st, token.sessionId, None, now);
    CancelledNow(lim, st, token, now);
    MoveExactly(lim, mid, token, stage, failure, later);
    EndExactly(lim, mid, token, Cancelled, failure, later);
  }

  lemma CancelledNow(lim: Limits, st: Store, token: Token, now: int)
    requires StoreOk(lim, st) && Current(st, token)
    ensures var mid := Cancel(st, token.sessionId, None, now).0;
            !Current(mid, token) && forall stage :: EndedAs(mid, token, stage) <==> stage == Cancelled
  {
    var mid := Cancel(st, token.sessionId, None, now).0;
    CancelExactly(st, token.sessionId, None, now);
    CancelKeepsOk(lim, st, token.sessionId, None, now);
    var turns := mid.sessions[token.sessionId].turns;
    var n := |turns| - 1;
    assert turns[n].id == token.turnId && turns[n].stage == Cancelled && turns[n].generation == token.generation;
    OneEnd(mid, token, n);
  }

  lemma OneEnd(st: Store, token: Token, n: nat)
    requires token.sessionId in st.sessions && DistinctTurns(st.sessions[token.sessionId].turns)
    requires var turns := st.sessions[token.sessionId].turns;
             n < |turns| && turns[n].id == token.turnId && turns[n].generation == token.generation
    ensures forall stage :: EndedAs(st, token, stage)
                            <==> Over(stage) && st.sessions[token.sessionId].turns[n].stage == stage
  {
    var turns := st.sessions[token.sessionId].turns;
    forall i | 0 <= i < |turns| && turns[i].id == token.turnId ensures i == n {}
  }

  // --------------------------------------------------------- beginning a turn

  /** The stage a turn starts in: the one asked for; else a spoken turn whose words are not
      known yet is being recorded, and any other is being thought about. */
  ghost predicate StartsIn(origin: Origin, words: Option<string>, initial: Option<Stage>, stage: Stage) {
    && (initial.Some? ==> stage == initial.value)
    && (initial.None? && origin == Voice && words.None? ==> stage == Capturing)
    && (initial.None? && (origin == Text || words.Some?) ==> stage == Thinking)
  }

  /** `r` is `q` with `x` last, the oldest entry gone when there was no room. */
  ghost predicate Pushed<T>(q: seq<T>, x: T, bound: nat, r: seq<T>) {
    if |q| < bound then r == q + [x] else q != [] && r == q[1..] + [x]
  }

  lemma PushedIs<T>(q: seq<T>, x: T, bound: nat)
    requires 1 <= bound && |q| <= bound
    ensures Pushed(q, x, bound, PushBounded(q, x, bound))
  {
  }

  /** Why no turn begins, in the order it is looked at; nothing is written then. */
  lemma BeginFails(lim: Limits, st: Store, id: Id, origin: Origin, text: Option<string>, initial: Option<Stage>,
                   candidates: seq<Id>, now: int, stage: Stage)
    requires StoreOk(lim, st)
    requires StartsIn(origin, text, initial, stage)
    ensures var (st', out) := BeginTurn(st, lim, id, origin, text, initial, candidates, now);
            && (out.Raised? ==> st' == st)
            && if text.Some? && CleanMessage(text.value, lim.maxChars).None? then out == Raised(InvalidMessage)
               else if Over(stage) then out == Raised(TerminalStart)
               else if id !in st.sessions then out == Raised(UnknownSession)
               else if !st.sessions[id].active then out == Raised(SessionClosed)
               else if exists t :: t in st.sessions[id].turns && !Over(t.stage) then out == Raised(TurnInProgress)
               else if UniqueId(candidates, TurnIds(st.sessions[id].turns)).None? then out == Raised(IdsExhausted)
               else out.Ok?
  {
    if id in st.sessions {
      var turns := st.sessions[id].turns;
      assert HasOpenTurn(turns) <==> exists t :: t in turns && !Over(t.stage);
    }
  }

  /** A turn that begins is the newest of its session, of its generation, in the stage
      above, and what was said is the newest message. */
  lemma BeginExactly(lim: Limits, st: Store, id: Id, origin: Origin, text: Option<string>, initial: Option<Stage>,
                     candidates: seq<Id>, now: int, stage: Stage)
    requires StoreOk(lim, st)
    requires StartsIn(origin, text, initial, stage)
    requires BeginTurn(st, lim, id, origin, text, initial, candidates, now).1.Ok?
    ensures var (st', out) := BeginTurn(st, lim, id, origin, text, initial, candidates, now);
            && OnlySession(st, id, st')
            && var (s, s', token) := (st.sessions[id], st'.sessions[id], out.value);
            && SameElse(s, s') && s'.generation == s.generation && s'.updatedAt == now
            && token == Token(id, token.turnId, s.generation)
            && UniqueId(candidates, TurnIds(s.turns)) == Some(token.turnId)
            && Pushed(s.turns, Turn(token.turnId, s.generation, origin, stage, None), lim.maxTurns, s'.turns)
            && if text.None? then s'.history == s.history
               else Pushed(s.history, Message(User, Strip(text.value), token.turnId), lim.maxHistory, s'.history)
  {
    var s := st.sessions[id];
    var token := BeginTurn(st, lim, id, origin, text, initial, candidates, now).1.value;
    PushedIs(s.turns, Turn(token.turnId, s.generation, origin, stage, None), lim.maxTurns);
    if text.Some? { PushedIs(s.history, Message(User, Strip(text.value), token.turnId), lim.maxHistory); }
  }

  // ---------------------------------------------------------- what was said

  /** Words are kept for the current turn only, under the role given, newest last; words
      that are no message are an error, and nothing else is written. */
  lemma CommitExactly(lim: Limits, st: Store, token: Token, role: Role, text: string, now: int)
    requires StoreOk(lim, st)
    ensures var (st', out) := CommitText(st, lim, token, role, text, now);
            if !Current(st, token) then st' == st && out == Ok(false)
            else if CleanMessage(text, lim.maxChars).None? then st' == st && out == Raised(InvalidMessage)
            else
              var (s, s') := (st.sessions[token.sessionId], st'.sessions[token.sessionId]);
              && out == Ok(true) && OnlySession(st, token.sessionId, st') && SameElse(s, s')
              && s'.turns == s.turns && s'.generation == s.generation && s'.updatedAt == now
              && Pushed(s.history, Message(role, Strip(text), token.turnId), lim.maxHistory, s'.history)
  {
    CurrentIff(lim, st, token);
    if Current(st, token) {
      PushedIs(st.sessions[token.sessionId].history, Message(role, Strip(text), token.turnId), lim.maxHistory);
    }
  }

  /** The pending request is stored stripped, or cleared; only an active session has one. */
  lemma PendingExactly(lim: Limits, st: Store, id: Id, text: Option<string>, now: int)
    requires ValidLimits(lim)
    ensures var (st', out) := SetPending(st, lim, id, text, now);
            if text.Some? && CleanMessage(text.value, lim.maxChars).None?
              then st' == st && out == Raised(InvalidMessage)
            else if id !in st.sessions then st' == st && out == Raised(UnknownSession)
            else if !st.sessions[id].active then st' == st && out == Raised(SessionClosed)
            else
              && out == Ok(()) && OnlySession(st, id, st')
              && st'.sessions[id].pendingRequest == (if text.Some? then Some(Strip(text.value)) else None)
              && st'.sessions[id].updatedAt == now
              && st.sessions[id].(pendingRequest := st'.sessions[id].pendingRequest, updatedAt := now)
                 == st'.sessions[id]
  {
  }

  // --------------------------------------------------------- creating sessions

  /** Of the closed sessions updated longest ago the one stored first makes room. */
  lemma {:induction false} OldestIsFirst(st: Store, order: seq<Id>, i: nat, j: nat)
    requires forall id :: id in order ==> id in st.sessions
    requires i < j < |order| && !st.sessions[order[i]].active && OldestClosed(st, order) == Some(order[j])
    requires Distinct(order)
    ensures st.sessions[order[j]].updatedAt < st.sessions[order[i]].updatedAt
    decreases |order|
  {
    var n := |order| - 1;
    if j < n {
      OldestIsFirst(st, order[..n], i, j);
    } else {
      assert order[..n][i] == order[i];
      var best := OldestClosed(st, order[..n]);
      assert best.Some?;
    }
  }

  /** A new session: of the client named, of generation 0, with nothing said or done; the
      last in the order.  Which others are there is told by `CreateKeepsOk`. */
  lemma CreateExactly(lim: Limits, st: Store, clientId: string, context: Option<SessionContext>, candidates: seq<Id>,
                      now: int)
    requires StoreOk(lim, st)
    requires CreateSession(st, lim, clientId, context, candidates, now).1.Ok?
    ensures var (st', out) := CreateSession(st, lim, clientId, context, candidates, now);
            && out.value in st'.sessions && st'.order != [] && st'.order[|st'.order| - 1] == out.value
            && var s := st'.sessions[out.value];
            && s.clientId == Strip(clientId) && s.generation == 0 && s.active && s.turns == [] && s.history == []
            && s.pendingRequest.None? && s.updatedAt == now
            && Some(s.context) == Normalize(if context.Some? then context.value else NO_CONTEXT)
  {
  }

  /** Room is only made when there is none, and then by the session above alone. */
  lemma CreateRoom(lim: Limits, st: Store, clientId: string, context: Option<SessionContext>, candidates: seq<Id>,
                   now: int)
    requires StoreOk(lim, st)
    requires CreateSession(st, lim, clientId, context, candidates, now).1.Ok?
    ensures var (st', out) := CreateSession(st, lim, clientId, context, candidates, now);
            if |st.sessions| < lim.maxSessions then
              st'.sessions == st.sessions[out.value := st'.sessions[out.value]] && st'.order == st.order + [out.value]
            else
              && OldestClosed(st, st.order).Some?
              && st'.sessions.Keys == st.sessions.Keys - {OldestClosed(st, st.order).value} + {out.value}
              && st'.order == Without(st.order, OldestClosed(st, st.order).value) + [out.value]
  {
  }

  /** Why no session is created, in the order it is looked at. */
  lemma CreateFails(lim: Limits, st: Store, clientId: string, context: Option<SessionContext>, candidates: seq<Id>,
                    now: int)
    requires StoreOk(lim, st)
    ensures var out := CreateSession(st, lim, clientId, context, candidates, now).1;
            && (out == Raised(BlankClient) <==> Strip(clientId) == "")
            && (out == Raised(CapacityReached)
                <==> Strip(clientId) != "" && |st.sessions| >= lim.maxSessions
                     && forall id :: id in st.sessions ==> st.sessions[id].active)
            && (out.Raised? ==> out.error in {BlankClient, CapacityReached, IdsExhausted, ContextRefused})
            && (out in {Raised(IdsExhausted), Raised(ContextRefused)} ==> MakeRoom(st, lim).Some?)
            && (Strip(clientId) != "" && MakeRoom(st, lim).Some? ==>
                  var id := UniqueId(candidates, MakeRoom(st, lim).value.sessions.Keys);
                  && (out == Raised(IdsExhausted) <==> id.None?)
                  && (out == Raised(ContextRefused)
                      <==> id.Some? && context.Some? && Normalize(context.value).None?)
                  && (out.Ok? ==> id == Some(out.value)))
  {
    NoContextNormal();
    NormalIffFixed(NO_CONTEXT);
  }
}
