/** What the plan runner answers, told by the plan's review and by what stands in the
    queue for each of its steps; and that it never executes past an outstanding review. */
module PlanAnswers {
  import opened Collections
  import opened Governance
  import opened GovernanceProofs
  import GovernanceTheorems
  import opened ToolArguments
  import opened PlanRunner
  import opened PlanInvariant
  import PlanBinding

  // ------------------------------------------------------- how a step stands

  /** The step has a tool and was not blocked by the planner. */
  ghost predicate Works(s: PlanStep) {
    && s.toolId.Some? && s.toolId.value != ""
    && s.status != "blocked_no_tool" && s.status != "blocked_invalid_arguments"
  }

  /** The step's own proposal is in the queue, with this review. */
  ghost predicate Stands(queue: seq<Proposal>, s: PlanStep, review: Review) {
    exists i :: 0 <= i < |queue| && s.proposalId == Some(queue[i].id) && queue[i].review == review
  }

  /** The text somewhere holds the mark the planner leaves where a result belongs. */
  ghost predicate HoldsMark(text: Text) {
    exists i :: 0 <= i <= |text| && "<requires approved" <= text[i..]
  }

  ghost predicate Marked(args: Args) {
    "text" in args && match args["text"]
      case Str(t) => HoldsMark(t)
      case List(t) => HoldsMark(t)
      case Object(t) => HoldsMark(t)
      case _ => false
  }

  /** A summarizing step without a result, marked itself or in its proposal. */
  ghost predicate AwaitsResult(queue: seq<Proposal>, s: PlanStep) {
    && s.toolId == Some("text.summarize")
    && (s.boundArguments.None? || s.boundArguments.value == map[])
    && (Marked(s.arguments)
        || exists i :: 0 <= i < |queue| && s.proposalId == Some(queue[i].id)
             && queue[i].meta.toolArguments.Some? && Marked(queue[i].meta.toolArguments.value))
  }

  ghost predicate Ran(s: PlanStep) {
    || (s.receiptId.Some? && s.receiptId.value != "")
    || s.executionStatus == Some("executed_read_only")
    || s.executionStatus == Some("dry_run_only_not_executed")
  }

  /** Step `i` works and has run, and it and all working steps before it have smaller ids. */
  ghost predicate RanAt(steps: seq<PlanStep>, i: int, id: Text) {
    && 0 <= i < |steps| && Works(steps[i]) && Ran(steps[i])
    && forall j :: 0 <= j <= i && Works(steps[j]) ==> Before(steps[j].id, id)
  }

  ghost predicate RanBefore(steps: seq<PlanStep>, id: Text) {
    exists i :: RanAt(steps, i, id)
  }

  ghost predicate Unqueued(s: PlanStep) {
    s.proposalId.None? || s.proposalId == Some("")
  }

  ghost predicate ToBind(steps: seq<PlanStep>, queue: seq<Proposal>, s: PlanStep) {
    Stands(queue, s, Pending) && AwaitsResult(queue, s) && RanBefore(steps, s.id)
  }

  ghost predicate ToReview(queue: seq<Proposal>, s: PlanStep) {
    Stands(queue, s, Pending) && !AwaitsResult(queue, s)
  }

  ghost predicate ToExecute(queue: seq<Proposal>, s: PlanStep) {
    Stands(queue, s, Approved) && (s.receiptId.None? || s.receiptId == Some(""))
  }

  // ----------------------------------------------------- the runner's own tests

  lemma MarkedIff(args: Args)
    ensures Contains(TextArgument(args), MARKER) <==> Marked(args)
  {
    HoldsMarkIff(TextArgument(args));
  }

  lemma HoldsMarkIff(text: Text)
    ensures Contains(text, MARKER) <==> HoldsMark(text)
  {
    ContainsIff(text, MARKER);
  }

  ghost predicate PriorAt(steps: seq<PlanStep>, i: int, id: Text) {
    0 <= i < |steps| && HasRun(steps[i]) && forall j :: 0 <= j <= i ==> Before(steps[j].id, id)
  }

  lemma {:induction false} HasPriorIff(target: PlanStep, steps: seq<PlanStep>)
    ensures HasPrior(target, steps) <==> exists i :: PriorAt(steps, i, target.id)
  {
    if steps != [] {
      HasPriorIff(target, steps[1..]);
      if HasPrior(target, steps) {
        if HasRun(steps[0]) {
          assert PriorAt(steps, 0, target.id);
        } else {
          var i :| PriorAt(steps[1..], i, target.id);
          assert PriorAt(steps, i + 1, target.id);
        }
      }
      if i :| PriorAt(steps, i, target.id) {
        if i > 0 { assert PriorAt(steps[1..], i - 1, target.id); }
      }
    }
  }

  /** The runner's dictionary finds the proposal in the queue with that id. */
  lemma StandsIff(queue: seq<Proposal>, s: PlanStep, review: Review)
    requires QueueOk(queue)
    ensures var p := Lookup(queue, s.proposalId); Stands(queue, s, review) <==> p.Some? && p.value.review == review
  {
    if s.proposalId.None? {
      PlanBinding.NoneNotFound(queue);
    } else {
      LookupIsFind(queue, s.proposalId.value);
      forall i | 0 <= i < |queue| && s.proposalId == Some(queue[i].id)
        ensures FindProposal(queue, s.proposalId.value) == i
      {
        FindIs(queue, i);
      }
    }
  }

  lemma AwaitsIff(queue: seq<Proposal>, s: PlanStep)
    requires QueueOk(queue) && Lookup(queue, s.proposalId).Some?
    ensures UnboundDependent(s, Lookup(queue, s.proposalId).value) <==> AwaitsResult(queue, s)
  {
    var p := Lookup(queue, s.proposalId).value;
    if s.proposalId.None? { PlanBinding.NoneNotFound(queue); }
    LookupIsFind(queue, s.proposalId.value);
    var k := FindProposal(queue, s.proposalId.value);
    forall i | 0 <= i < |queue| && s.proposalId == Some(queue[i].id) ensures i == k { FindIs(queue, i); }
    MarkedIff(s.arguments);
    if p.meta.toolArguments.Some? { MarkedIff(p.meta.toolArguments.value); }
  }

  // ------------------------------------------------------ lists in plan order

  /** The places of `picked` among `steps`, in order. */
  ghost predicate Picks(idx: seq<nat>, n: nat) {
    && (forall x :: 0 <= x < |idx| ==> idx[x] < n)
    && (forall x, y :: 0 <= x < y < |idx| ==> idx[x] < idx[y])
  }

  ghost function Places(steps: seq<PlanStep>): (idx: seq<nat>)
    ensures |idx| == |EligibleSteps(steps)|
  {
    if steps == [] then []
    else Places(steps[..|steps| - 1]) + if Eligible(steps[|steps| - 1]) then [|steps| - 1] else []
  }

  lemma {:induction false} PlaceOf(steps: seq<PlanStep>, x: nat)
    requires x < |Places(steps)|
    ensures Places(steps)[x] < |steps| && EligibleSteps(steps)[x] == steps[Places(steps)[x]]
    ensures Eligible(EligibleSteps(steps)[x])
  {
    var n := |steps| - 1;
    if x < |Places(steps[..n])| { PlaceOf(steps[..n], x); }
  }

  lemma {:induction false} PlacesIncrease(steps: seq<PlanStep>, x: nat, y: nat)
    requires x < y < |Places(steps)|
    ensures Places(steps)[x] < Places(steps)[y]
  {
    var n := |steps| - 1;
    PlaceOf(steps[..n], x);
    if y < |Places(steps[..n])| { PlacesIncrease(steps[..n], x, y); }
  }

  lemma {:induction false} PlaceFound(steps: seq<PlanStep>, i: nat) returns (x: nat)
    requires i < |steps| && Eligible(steps[i])
    ensures x < |Places(steps)| && Places(steps)[x] == i
  {
    var n := |steps| - 1;
    if i < n {
      x := PlaceFound(steps[..n], i);
    } else {
      x := |Places(steps)| - 1;
    }
  }

  lemma EligiblePlaces(steps: seq<PlanStep>) returns (idx: seq<nat>)
    ensures Picks(idx, |steps|) && |idx| == |EligibleSteps(steps)|
    ensures forall x :: 0 <= x < |idx| ==> EligibleSteps(steps)[x] == steps[idx[x]] && Eligible(steps[idx[x]])
    ensures forall i :: 0 <= i < |steps| && Eligible(steps[i]) ==> i in idx
  {
    idx := Places(steps);
    forall x | 0 <= x < |idx|
      ensures idx[x] < |steps| && EligibleSteps(steps)[x] == steps[idx[x]] && Eligible(steps[idx[x]])
    {
      PlaceOf(steps, x);
    }
    forall x, y | 0 <= x < y < |idx| ensures idx[x] < idx[y] { PlacesIncrease(steps, x, y); }
    forall i | 0 <= i < |steps| && Eligible(steps[i]) ensures i in idx { var x := PlaceFound(steps, i); }
  }

  lemma {:induction false} SelectPlaces(test: Test, steps: seq<PlanStep>, queue: seq<Proposal>,
                                        eligible: seq<PlanStep>) returns (idx: seq<nat>)
    ensures var list := Select(test, steps, queue, eligible);
            && Picks(idx, |steps|) && |idx| == |list|
            && (forall x :: 0 <= x < |idx| ==>
                  list[x] == ReadyOf(steps[idx[x]]) && Passes(test, steps[idx[x]], queue, eligible))
            && (forall i :: 0 <= i < |steps| && Passes(test, steps[i], queue, eligible) ==> i in idx)
    decreases |steps|
  {
    idx := [];
    if steps != [] {
      var n := |steps| - 1;
      idx := SelectPlaces(test, steps[..n], queue, eligible);
      if Passes(test, steps[n], queue, eligible) { idx := idx + [n]; }
    }
  }

  /** How the step stands, for each of the four lists. */
  ghost predicate Belongs(test: Test, steps: seq<PlanStep>, queue: seq<Proposal>, s: PlanStep) {
    Works(s) && match test
      case IsBindable => ToBind(steps, queue, s)
      case IsAwaiting => ToReview(queue, s)
      case IsExecutable => ToExecute(queue, s)
      case IsDenied => Stands(queue, s, Denied)
  }

  /** `list` names the steps at `idx` and their own proposals, and those are in plan order
      all the steps that belong on it. */
  ghost predicate Lists(list: seq<Ready>, test: Test, steps: seq<PlanStep>, queue: seq<Proposal>, idx: seq<nat>) {
    && Picks(idx, |steps|) && |idx| == |list|
    && (forall x :: 0 <= x < |idx| ==>
          list[x].stepId == steps[idx[x]].id && steps[idx[x]].proposalId == Some(list[x].proposalId))
    && (forall i :: 0 <= i < |steps| ==> (i in idx <==> Belongs(test, steps, queue, steps[i])))
  }

  /** The eligible steps up to one are the working steps up to its place. */
  lemma BeforeUpTo(steps: seq<PlanStep>, idx: seq<nat>, x: nat, id: Text)
    requires Picks(idx, |steps|) && |idx| == |EligibleSteps(steps)| && x < |idx|
    requires forall y :: 0 <= y < |idx| ==> EligibleSteps(steps)[y] == steps[idx[y]] && Eligible(steps[idx[y]])
    requires forall i :: 0 <= i < |steps| && Eligible(steps[i]) ==> i in idx
    ensures (forall y :: 0 <= y <= x ==> Before(EligibleSteps(steps)[y].id, id))
            <==> forall j :: 0 <= j <= idx[x] && Works(steps[j]) ==> Before(steps[j].id, id)
  {
    var eligible := EligibleSteps(steps);
    if forall y :: 0 <= y <= x ==> Before(eligible[y].id, id) {
      forall j | 0 <= j <= idx[x] && Works(steps[j]) ensures Before(steps[j].id, id) {
        var y :| 0 <= y < |idx| && idx[y] == j;
        assert y <= x && eligible[y] == steps[j];
      }
    } else {
      var y :| 0 <= y <= x && !Before(eligible[y].id, id);
      assert idx[y] <= idx[x] && Works(steps[idx[y]]);
    }
  }

  lemma RanBeforeIff(steps: seq<PlanStep>, s: PlanStep)
    ensures HasPrior(s, EligibleSteps(steps)) <==> RanBefore(steps, s.id)
  {
    var eligible := EligibleSteps(steps);
    var idx := EligiblePlaces(steps);
    HasPriorIff(s, eligible);
    if x :| PriorAt(eligible, x, s.id) {
      BeforeUpTo(steps, idx, x, s.id);
      assert RanAt(steps, idx[x], s.id);
    }
    if i :| RanAt(steps, i, s.id) {
      assert Eligible(steps[i]);
      var x :| 0 <= x < |idx| && idx[x] == i;
      BeforeUpTo(steps, idx, x, s.id);
      assert PriorAt(eligible, x, s.id);
    }
  }

  lemma BelongsIff(test: Test, steps: seq<PlanStep>, queue: seq<Proposal>, s: PlanStep)
    requires QueueOk(queue) && Works(s)
    ensures Passes(test, s, queue, EligibleSteps(steps)) <==> Belongs(test, steps, queue, s)
  {
    StandsIff(queue, s, Pending);
    StandsIff(queue, s, Approved);
    StandsIff(queue, s, Denied);
    RanBeforeIff(steps, s);
    if Lookup(queue, s.proposalId).Some? { AwaitsIff(queue, s); }
  }

  lemma BelongsQueued(test: Test, steps: seq<PlanStep>, queue: seq<Proposal>, s: PlanStep)
    requires Belongs(test, steps, queue, s)
    ensures s.proposalId.Some?
  {
  }

  lemma PlacesCompose(places: seq<nat>, picked: seq<nat>, n: nat) returns (idx: seq<nat>)
    requires Picks(places, n) && Picks(picked, |places|)
    ensures Picks(idx, n) && |idx| == |picked| && forall x :: 0 <= x < |idx| ==> idx[x] == places[picked[x]]
    ensures forall y :: 0 <= y < |places| ==> (places[y] in idx <==> y in picked)
  {
    idx := seq(|picked|, x requires 0 <= x < |picked| => places[picked[x]]);
    forall y | 0 <= y < |places| ensures places[y] in idx <==> y in picked {
      if y in picked {
        var x :| 0 <= x < |picked| && picked[x] == y;
        assert idx[x] == places[y];
      }
      if places[y] in idx {
        var x :| 0 <= x < |idx| && idx[x] == places[y];
        assert picked[x] == y;
      }
    }
  }

  /** The runner's list for a test holds exactly the steps that belong on it. */
  lemma ListsExactly(test: Test, steps: seq<PlanStep>, queue: seq<Proposal>) returns (idx: seq<nat>)
    requires QueueOk(queue)
    ensures var eligible := EligibleSteps(steps);
            Lists(Select(test, eligible, queue, eligible), test, steps, queue, idx)
  {
    var eligible := EligibleSteps(steps);
    var places := EligiblePlaces(steps);
    var picked := SelectPlaces(test, eligible, queue, eligible);
    idx := PlacesCompose(places, picked, |steps|);
    forall i | 0 <= i < |steps| ensures i in idx <==> Belongs(test, steps, queue, steps[i]) {
      ListedIff(test, steps, queue, places, picked, idx, i);
    }
    forall x | 0 <= x < |idx| ensures steps[idx[x]].proposalId.Some? {
      BelongsQueued(test, steps, queue, steps[idx[x]]);
    }
  }

  lemma ListedIff(test: Test, steps: seq<PlanStep>, queue: seq<Proposal>, places: seq<nat>, picked: seq<nat>,
                  idx: seq<nat>, i: nat)
    requires QueueOk(queue) && i < |steps| && |places| == |EligibleSteps(steps)|
    requires forall y :: 0 <= y < |places| ==>
                           places[y] < |steps| && EligibleSteps(steps)[y] == steps[places[y]]
                           && Eligible(steps[places[y]])
    requires Eligible(steps[i]) ==> i in places
    requires forall y :: 0 <= y < |places| ==>
                           (places[y] in idx <==> y in picked)
                           && (y in picked
                               <==> Passes(test, EligibleSteps(steps)[y], queue, EligibleSteps(steps)))
    requires i in idx ==> i in places
    ensures i in idx <==> Belongs(test, steps, queue, steps[i])
  {
    if Works(steps[i]) {
      BelongsIff(test, steps, queue, steps[i]);
      var y :| 0 <= y < |places| && places[y] == i;
    }
  }

  // ------------------------------------------------------------- the answers

  /** Some step belongs on the list. */
  ghost predicate AnyOn(test: Test, steps: seq<PlanStep>, queue: seq<Proposal>) {
    exists i :: 0 <= i < |steps| && Belongs(test, steps, queue, steps[i])
  }

  ghost predicate SomeUnqueued(steps: seq<PlanStep>) {
    exists i :: 0 <= i < |steps| && Works(steps[i]) && Unqueued(steps[i])
  }

  lemma UnqueuedIff(steps: seq<PlanStep>)
    ensures AnyUnqueued(EligibleSteps(steps)) <==> SomeUnqueued(steps)
  {
    var eligible := EligibleSteps(steps);
    var idx := EligiblePlaces(steps);
    if x :| 0 <= x < |eligible| && !Truthy(eligible[x].proposalId) { assert Unqueued(steps[idx[x]]); }
    if i :| 0 <= i < |steps| && Works(steps[i]) && Unqueued(steps[i]) {
      assert Eligible(steps[i]);
      var x :| 0 <= x < |idx| && idx[x] == i;
      assert !Truthy(eligible[x].proposalId);
    }
  }

  lemma ListedSome(test: Test, steps: seq<PlanStep>, queue: seq<Proposal>)
    requires QueueOk(queue)
    ensures var eligible := EligibleSteps(steps);
            Select(test, eligible, queue, eligible) != [] <==> AnyOn(test, steps, queue)
  {
    var idx := ListsExactly(test, steps, queue);
    if idx != [] { assert idx[0] in idx; }
  }

  /** Which of the eight answers the runner gives, for any plan and any queue with distinct
      ids: what has to be decided comes before what can be done, except that missing
      proposals and results are seen to first. */
  lemma AnswerIff(plan: Plan, queue: seq<Proposal>)
    requires QueueOk(queue)
    ensures var answer, steps := NextAction(plan, queue), plan.steps;
            var queuedAll := plan.review == Some(Approved) && !SomeUnqueued(steps);
            var bind, review := AnyOn(IsBindable, steps, queue), AnyOn(IsAwaiting, steps, queue);
            var execute, denied := AnyOn(IsExecutable, steps, queue), AnyOn(IsDenied, steps, queue);
            && (answer.NeedsPlanReview? <==> plan.review.None? || plan.review == Some(Pending))
            && (answer.PlanDenied? <==> plan.review == Some(Denied))
            && (answer.CanQueue? <==> plan.review == Some(Approved) && SomeUnqueued(steps))
            && (answer.CanBind? <==> queuedAll && bind)
            && (answer.NeedsStepReview? <==> queuedAll && !bind && review)
            && (answer.CanExecute? <==> queuedAll && !bind && !review && execute)
            && (answer.BlockedByDenied? <==> queuedAll && !bind && !review && !execute && denied)
            && (answer.Complete? <==> queuedAll && !bind && !review && !execute && !denied)
  {
    if plan.review.Some? {
      assert plan.review.value.Pending? || plan.review.value.Approved? || plan.review.value.Denied?;
    }
    UnqueuedIff(plan.steps);
    ListedSome(IsBindable, plan.steps, queue);
    ListedSome(IsAwaiting, plan.steps, queue);
    ListedSome(IsExecutable, plan.steps, queue);
    ListedSome(IsDenied, plan.steps, queue);
  }

  /** The steps an answer names: the ready ones or the ones waited for, all of them, in
      plan order, each with its own proposal. */
  lemma AnswerNames(plan: Plan, queue: seq<Proposal>) returns (idx: seq<nat>)
    requires QueueOk(queue)
    ensures match NextAction(plan, queue)
            case CanBind(ready) => Lists(ready, IsBindable, plan.steps, queue, idx)
            case NeedsStepReview(waiting) => Lists(waiting, IsAwaiting, plan.steps, queue, idx)
            case CanExecute(ready) => Lists(ready, IsExecutable, plan.steps, queue, idx)
            case BlockedByDenied(waiting) => Lists(waiting, IsDenied, plan.steps, queue, idx)
            case _ => true
  {
    idx := [];
    match NextAction(plan, queue)
    case CanBind(_) => idx := ListsExactly(IsBindable, plan.steps, queue);
    case NeedsStepReview(_) => idx := ListsExactly(IsAwaiting, plan.steps, queue);
    case CanExecute(_) => idx := ListsExactly(IsExecutable, plan.steps, queue);
    case BlockedByDenied(_) => idx := ListsExactly(IsDenied, plan.steps, queue);
    case _ =>
  }

  // ----------------------------------------------- nothing runs past a review

  lemma PlanEventKeepsReceipts(desk: Desk, g: Gov, e: Event)
    requires e.typ in {"tool_plan_step_queue", "tool_plan_result_binding", "user_intent"}
    ensures Emit(desk, g, e).receipts == g.receipts
  {
    if e.typ == "tool_plan_step_queue" {
      GovernanceTheorems.PlanEventsIssueNothing(g, e);
    } else if e.typ == "user_intent" {
      GovernanceTheorems.IntentIssuesNothing(desk.env, g, e);
    } else {
      GovernanceTheorems.OthersIssueNothing(desk.env, g, e);
    }
  }

  lemma {:induction false} QueueingIssuesNothing(desk: Desk, g: Gov, plan: Plan, steps: seq<PlanStep>, prefix: Text)
    ensures QueueProposals(desk, g, plan, steps, prefix).0.receipts == g.receipts
    decreases |steps|
  {
    if steps != [] {
      var n := |steps| - 1;
      QueueingIssuesNothing(desk, g, plan, steps[..n], prefix);
      var (g1, queued) := QueueProposals(desk, g, plan, steps[..n], prefix);
      if queued.Ok? { QueueOneIssuesNothing(desk, g1, plan, steps[n], prefix, queued.value); }
    }
  }

  lemma QueueOneIssuesNothing(desk: Desk, g: Gov, plan: Plan, s: PlanStep, prefix: Text, queued: seq<QueuedStep>)
    ensures QueueNext(desk, g, plan, s, prefix, queued).0.receipts == g.receipts
  {
    if QueueCandidate(s) {
      var event := ProposalEvent(desk.registry, s.toolId.value, s.arguments, StepReason(plan, s, prefix), g.agentMode);
      if event.Ok? { PlanEventKeepsReceipts(desk, g, event.value); }
    }
  }

  lemma OnlyExecutionIssues(desk: Desk, g: Gov, planId: Text, now: Text)
    ensures QueueSteps(desk, g, planId, "guided advance queued step proposals; ", now).0.receipts == g.receipts
    ensures BindResults(desk, g, planId, now).0.receipts == g.receipts
  {
    var i := FindPlan(g.plans, planId);
    if i < |g.plans| {
      var prefix := "guided advance queued step proposals; ";
      QueueingIssuesNothing(desk, g, g.plans[i], g.plans[i].steps, prefix);
      var (g1, queued) := QueueProposals(desk, g, g.plans[i], g.plans[i].steps, prefix);
      if queued.Ok? {
        PlanEventKeepsReceipts(desk, g1,
                               BLANK_EVENT.(typ := "tool_plan_step_queue", planId := planId, queued := queued.value,
                                            at := Some(now)));
      }
      PlanEventKeepsReceipts(desk, g,
                             BLANK_EVENT.(typ := "tool_plan_result_binding", planId := planId,
                                          bindings := Bindings(desk, g, g.plans[i].steps), at := Some(now)));
    }
  }

  /** When a guided advance issues any receipt, every working step of the plan has its
      proposal, none of them awaits a human review, and none could have been given a result
      first. */
  lemma NeverPastAReview(desk: Desk, g: Gov, k: nat, now: Text, i: nat)
    requires QueueOk(g.proposals) && k < |g.plans| && FindPlan(g.plans, g.plans[k].id) == k
    requires AdvancePlan(desk, g, g.plans[k].id, now).0.receipts != g.receipts
    requires i < |g.plans[k].steps| && Works(g.plans[k].steps[i])
    ensures var s := g.plans[k].steps[i];
            && g.plans[k].review == Some(Approved) && !Unqueued(s)
            && (Stands(g.proposals, s, Pending) ==>
                  AwaitsResult(g.proposals, s) && !RanBefore(g.plans[k].steps, s.id))
  {
    var plan := g.plans[k];
    var s := plan.steps[i];
    AnswerIff(plan, g.proposals);
    OnlyExecutionIssues(desk, g, plan.id, now);
    assert NextAction(plan, g.proposals).CanExecute?;
    assert !Belongs(IsAwaiting, plan.steps, g.proposals, s) && !Belongs(IsBindable, plan.steps, g.proposals, s);
  }
}
