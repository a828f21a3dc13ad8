/** One cancellable orchestration at a time per session.  Starting, finishing, and the
    two halves of a cancellation (popping the token, then cancelling it) are separate
    steps that interleave freely.  `R` is the type of cancellation tokens, compared by
    identity. */
module Coordination {

  type Id = string

  datatype State<!R(==)> = State(
    registered: map<Id, R>,    // what the coordinator knows
    running: map<R, Id>,       // the orchestrations under way
    cancelled: set<R>,
    popped: set<R>,            // taken out by a cancellation that has not cancelled them yet
    started: set<R>,           // every token ever made
    thrown: set<R>)            // those whose preflight check threw

  datatype Preflight = Granted | Refused | Threw

  datatype Step<!R(==)> =
    | Start(session: Id, run: R, preflight: Preflight)
    | Finish(run: R)
    | Pop(session: Id)
    | CancelPopped(run: R)

  function Initial<R(==)>(): State<R> {
    State(map[], map[], {}, {}, {}, {})
  }

  function Previous<R(==)>(s: State<R>, session: Id): set<R> {
    if session in s.registered then {s.registered[session]} else {}
  }

  /** Registering supersedes the session's previous token.  When the preflight check
      throws, the token stays registered although nothing runs. */
  function DoStart<R(==)>(s: State<R>, session: Id, run: R, preflight: Preflight): State<R> {
    State(s.registered[session := run],
          if preflight.Threw? then s.running else s.running[run := session],
          s.cancelled + Previous(s, session) + (if preflight.Refused? then {run} else {}),
          s.popped,
          s.started + {run},
          if preflight.Threw? then s.thrown + {run} else s.thrown)
  }

  /** Cleanup removes the session's entry only if it is still this token. */
  function DoFinish<R(==)>(s: State<R>, run: R): State<R> {
    if run !in s.running then s
    else
      var session := s.running[run];
      s.(running := s.running - {run},
         registered := if session in s.registered && s.registered[session] == run then s.registered - {session}
           else s.registered)
  }

  function DoPop<R(==)>(s: State<R>, session: Id): State<R> {
    if session !in s.registered then s
    else s.(registered := s.registered - {session}, popped := s.popped + {s.registered[session]})
  }

  function DoCancel<R(==)>(s: State<R>, run: R): State<R> {
    if run !in s.popped then s else s.(popped := s.popped - {run}, cancelled := s.cancelled + {run})
  }

  function Do<R(==)>(s: State<R>, step: Step<R>): State<R> {
    match step
    case Start(session, run, preflight) => DoStart(s, session, run, preflight)
    case Finish(run) => DoFinish(s, run)
    case Pop(session) => DoPop(s, session)
    case CancelPopped(run) => DoCancel(s, run)
  }

  function Run<R(==)>(s: State<R>, steps: seq<Step<R>>): State<R>
    decreases |steps|
  {
    if steps == [] then s else Run(Do(s, steps[0]), steps[1..])
  }

  /** Every start makes a new token. */
  ghost predicate FreshTokens<R>(s: State<R>, steps: seq<Step<R>>)
    decreases |steps|
  {
    steps == [] || ((steps[0].Start? ==> steps[0].run !in s.started) && FreshTokens(Do(s, steps[0]), steps[1..]))
  }

  /** A running orchestration that is not cancelled is the registered one of its
      session, or a cancellation has already popped it. */
  ghost predicate RunOk<R>(s: State<R>, r: R) {
    r in s.running ==>
      && r in s.started
      && (r in s.cancelled || r in s.popped || (s.running[r] in s.registered && s.registered[s.running[r]] == r))
  }

  ghost predicate SlotOk<R>(s: State<R>, session: Id) {
    session in s.registered ==>
      var r := s.registered[session];
      r in s.started && r !in s.popped
      && (r in s.running <==> r !in s.thrown) && (r in s.running ==> s.running[r] == session)
  }

  ghost predicate PoppedOk<R>(s: State<R>, r: R) {
    r in s.popped ==> r in s.started
  }

  ghost predicate Inv<R>(s: State<R>) {
    && (forall r {:trigger r in s.running} :: r in s.running ==> RunOk(s, r))
    && (forall k {:trigger k in s.registered} :: k in s.registered ==> SlotOk(s, k))
    && (forall r {:trigger r in s.popped} :: r in s.popped ==> PoppedOk(s, r))
    && (forall a, b {:trigger s.registered[a], s.registered[b]} ::
          a in s.registered && b in s.registered && s.registered[a] == s.registered[b] ==> a == b)
    && s.thrown <= s.started
  }

  /** A start registers its token and cancels the one it finds; a refusal cancels the new
      one as well, and a preflight check that throws leaves nothing running. */
  lemma StartExactly<R>(s: State<R>, session: Id, run: R, preflight: Preflight)
    ensures var s' := Do(s, Start(session, run, preflight));
            && session in s'.registered && s'.registered[session] == run
            && (forall k :: k != session ==> (k in s'.registered <==> k in s.registered)
                                             && (k in s.registered ==> s'.registered[k] == s.registered[k]))
            && (forall r :: r in s'.cancelled <==>
                   || r in s.cancelled || (session in s.registered && s.registered[session] == r)
                   || (preflight == Refused && r == run))
            && (preflight != Threw ==> run in s'.running && s'.running[run] == session)
            && (preflight == Threw ==> s'.running == s.running)
            && (forall r :: r in s'.thrown <==> r in s.thrown || (preflight == Threw && r == run))
            && s'.popped == s.popped && s'.started == s.started + {run}
            && forall r :: r != run ==> (r in s'.running <==> r in s.running)
                                        && (r in s.running ==> s'.running[r] == s.running[r])
  {
  }

  /** A cancellation takes the session's token out and, as a second step, cancels it. */
  lemma CancelExactly<R>(s: State<R>, session: Id)
    ensures session !in s.registered ==> Do(s, Pop(session)) == s
    ensures session in s.registered ==>
              var (r, mid) := (s.registered[session], Do(s, Pop(session)));
              var end := Do(mid, CancelPopped(r));
              && mid.registered == s.registered - {session} && mid.popped == s.popped + {r}
              && mid.cancelled == s.cancelled && mid.running == s.running
              && end.registered == mid.registered && end.cancelled == s.cancelled + {r} && r !in end.popped
              && end.running == s.running
  {
  }

  lemma DoKeepsInv<R>(s: State<R>, step: Step<R>)
    requires Inv(s) && (step.Start? ==> step.run !in s.started)
    ensures Inv(Do(s, step))
  {
    var s' := Do(s, step);
    forall r | r in s'.running ensures RunOk(s', r) {
      if r in s.running { assert RunOk(s, r); }
    }
    forall k | k in s'.registered ensures SlotOk(s', k) {
      if k in s.registered { assert SlotOk(s, k); }
    }
  }

  lemma {:induction false} RunKeepsInv<R>(s: State<R>, steps: seq<Step<R>>)
    requires Inv(s) && FreshTokens(s, steps)
    ensures Inv(Run(s, steps))
    decreases |steps|
  {
    if steps != [] {
      DoKeepsInv(s, steps[0]);
      RunKeepsInv(Do(s, steps[0]), steps[1..]);
    }
  }

  predicate Unhindered<R(==)>(s: State<R>, r: R) {
    r in s.running && r !in s.cancelled && r !in s.popped
  }

  /** However starts, finishes and cancellations interleave: a running orchestration that
      nobody has cancelled is the one registered for its session or is about to be
      cancelled; so two of one session never run unhindered together. */
  lemma OneUnhinderedPerSession<R>(steps: seq<Step<R>>, r: R, q: R)
    requires FreshTokens(Initial(), steps)
    ensures var s := Run(Initial(), steps);
            && (Unhindered(s, r) ==> s.running[r] in s.registered && s.registered[s.running[r]] == r)
            && (Unhindered(s, r) && Unhindered(s, q) && s.running[r] == s.running[q] ==> r == q)
  {
    var s := Run(Initial(), steps);
    RunKeepsInv(Initial(), steps);
    if r in s.running { assert RunOk(s, r); }
    if q in s.running { assert RunOk(s, q); }
  }

  /** The cleanup of one turn never deregisters another turn, and leaves every other
      turn as it was. */
  lemma CleanupSparesOthers<R>(steps: seq<Step<R>>, run: R, session: Id)
    requires FreshTokens(Initial(), steps)
    ensures var s := Run(Initial(), steps);
            var s' := Do(s, Finish(run));
            && (session in s.registered && s.registered[session] != run ==>
                  session in s'.registered && s'.registered[session] == s.registered[session])
            && (run in s.running ==> !(session in s'.registered && s'.registered[session] == run))
            && s'.cancelled == s.cancelled && s'.popped == s.popped
            && forall r :: r != run ==> (r in s'.running <==> r in s.running)
  {
    var s := Run(Initial(), steps);
    RunKeepsInv(Initial(), steps);
    if run in s.running && session in s.registered { assert SlotOk(s, session) && RunOk(s, run); }
  }

  /** Cancelled, about to be cancelled, or over. */
  predicate Doomed<R(==)>(s: State<R>, r: R) {
    r in s.started && (r in s.cancelled || r in s.popped || r !in s.running)
  }

  lemma {:induction false} DoomedForever<R>(s: State<R>, steps: seq<Step<R>>, r: R)
    requires Inv(s) && FreshTokens(s, steps) && Doomed(s, r)
    ensures Doomed(Run(s, steps), r)
    decreases |steps|
  {
    if steps != [] {
      DoKeepsInv(s, steps[0]);
      DoomedForever(Do(s, steps[0]), steps[1..], r);
    }
  }

  /** A cancellation, or a newer turn, reaches every orchestration of the session that
      was running: once no cancellation is left half done, each is cancelled or over. */
  lemma CancellationReachesAll<R>(before: seq<Step<R>>, first: Step<R>, after: seq<Step<R>>, r: R)
    requires FreshTokens(Initial(), before)
    requires var s := Run(Initial(), before);
             && r in s.running && (first == Pop(s.running[r]) || (first.Start? && first.session == s.running[r]))
             && FreshTokens(s, [first] + after)
    ensures var s := Run(Initial(), before);
            var end := Run(Do(s, first), after);
            end.popped == {} ==> r in end.cancelled || r !in end.running
  {
    var s := Run(Initial(), before);
    RunKeepsInv(Initial(), before);
    assert ([first] + after)[1..] == after;
    DoKeepsInv(s, first);
    assert RunOk(s, r);
    DoomedForever(Do(s, first), after, r);
  }

  /** Some start of this token had a preflight check that threw. */
  predicate Throws<R(==)>(steps: seq<Step<R>>, r: R) {
    steps != [] && ((steps[0].Start? && steps[0].run == r && steps[0].preflight.Threw?) || Throws(steps[1..], r))
  }

  lemma {:induction false} ThrownExactly<R>(s: State<R>, steps: seq<Step<R>>, r: R)
    ensures r in Run(s, steps).thrown <==> r in s.thrown || Throws(steps, r)
    decreases |steps|
  {
    if steps != [] { ThrownExactly(Do(s, steps[0]), steps[1..], r); }
  }

  /** Along every run, an entry has its orchestration running behind it exactly when the
      preflight check of its own start did not throw; so an entry with nothing behind it
      arises from a throw and from nothing else. */
  lemma RegisteredRunsIff<R>(steps: seq<Step<R>>, session: Id)
    requires FreshTokens(Initial(), steps)
    ensures var s := Run(Initial(), steps);
            session in s.registered ==>
              var r := s.registered[session];
              (r in s.running && s.running[r] == session) <==> !Throws(steps, r)
  {
    var s := Run(Initial(), steps);
    RunKeepsInv(Initial(), steps);
    if session in s.registered {
      assert SlotOk(s, session);
      ThrownExactly(Initial(), steps, s.registered[session]);
    }
  }

  /** A preflight check that throws leaves an entry no cleanup will remove: the session
      counts as active although nothing runs for it. */
  lemma ThrowingPreflightStays<R>(s: State<R>, session: Id, run: R)
    requires Inv(s) && run !in s.started
    ensures var s' := Do(s, Start(session, run, Threw));
            && session in s'.registered && s'.registered[session] == run && run !in s'.running
            && Do(s', Finish(run)) == s'
  {
    assert forall r :: r in s.running ==> RunOk(s, r);
  }
}

/** The coordinator as the program runs it: a dictionary of token objects. */
module Coordinators {
  import opened Coordination

  class CancellationToken {
    var cancelled: bool

    constructor ()
      ensures !cancelled
    {
      cancelled := false;
    }

    method Cancel()
      modifies this
      ensures cancelled
    {
      cancelled := true;
    }
  }

  class PersonalConversationCoordinator {
    var tokens: map<Id, CancellationToken>
    ghost var history: State<CancellationToken>

    ghost predicate Valid()
      reads this, history.started
    {
      && history.registered == tokens
      && tokens.Values <= history.started && history.popped <= history.started
      && (forall t :: t in history.started ==> (t.cancelled <==> t in history.cancelled))
    }

    constructor ()
      ensures Valid() && history == Initial()
    {
      tokens, history := map[], Initial();
    }

    /** The locked first part of `run_turn`. */
    method Start(session: Id, preflight: Preflight) returns (token: CancellationToken)
      requires Valid()
      modifies this, history.started
      ensures Valid() && fresh(token) && token !in old(history.started)
      ensures history == Do(old(history), Step.Start(session, token, preflight))
    {
      token := new CancellationToken();
      if session in tokens { tokens[session].Cancel(); }
      tokens := tokens[session := token];
      if preflight.Refused? { token.Cancel(); }
      history := Do(history, Step.Start(session, token, preflight));
    }

    /** The locked last part of `run_turn`. */
    method Finish(session: Id, token: CancellationToken)
      requires Valid() && token in history.running && history.running[token] == session
      modifies this
      ensures Valid() && history == Do(old(history), Step.Finish(token))
    {
      if session in tokens && tokens[session] == token { tokens := tokens - {session}; }
      history := Do(history, Step.Finish(token));
    }

    method PopToken(session: Id) returns (found: bool, token: CancellationToken?)
      requires Valid()
      modifies this
      ensures Valid() && history == Do(old(history), Pop(session))
      ensures found <==> session in old(tokens)
      ensures found ==> token == old(tokens)[session] && token in history.popped
    {
      found, token := session in tokens, null;
      if found {
        token := tokens[session];
        tokens := tokens - {session};
      }
      history := Do(history, Pop(session));
    }

    method CancelToken(token: CancellationToken)
      requires Valid() && token in history.popped
      modifies this, token
      ensures Valid() && history == Do(old(history), CancelPopped(token))
    {
      token.Cancel();
      history := Do(history, CancelPopped(token));
    }

    /** Without interference, both halves in a row. */
    method CancelSession(session: Id) returns (found: bool)
      requires Valid()
      modifies this, history.started
      ensures Valid() && found == (session in old(tokens))
      ensures history == if found then Run(old(history), [Pop(session), CancelPopped(old(tokens)[session])])
                         else old(history)
    {
      var token;
      found, token := PopToken(session);
      if found {
        ghost var t: CancellationToken := token;
        ghost var steps: seq<Step<CancellationToken>> := [Pop(session), CancelPopped(t)];
        assert steps[1..] == [CancelPopped(t)] && steps[1..][1..] == [];
        assert Run(history, steps[1..]) == Run(Do(history, CancelPopped(t)), []);
        CancelToken(token);
      }
    }
  }
}
