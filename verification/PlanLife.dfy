/** A plan among other events: whatever else is logged, work on it only moves forward. */
module PlanLife {
  import opened Collections
  import opened Governance
  import opened GovernanceProofs
  import opened GovernanceTheorems
  import opened PlanTheorems
  import opened ToolArguments
  import opened PlanRunner
  import opened PlanInvariant
  import opened PlanProgress
  import opened PlanExecuting
  import opened PlanBinding
  import opened PlanAdvance

  const STEP_EVENTS := {"tool_plan_review", "tool_plan_step_queue", "tool_plan_execution_request",
                        "tool_plan_result_binding"}

  /** An event that is not a move on this plan: reviews of proposals, new intents, new
      plans, executions requested one by one, and moves on other plans. */
  ghost predicate Outside(e: Event, plan: Plan) {
    e.typ in STEP_EVENTS ==>
      && e.planId != plan.id
      && forall i ::
           0 <= i < |plan.steps| && plan.steps[i].proposalId.Some? ==>
               !HasBinding(e.bindings, plan.steps[i].proposalId.value)
  }

  lemma {:induction false} FindPlanPrefix(a: seq<Plan>, b: seq<Plan>, id: Text)
    requires a <= b && FindPlan(a, id) < |a|
    ensures FindPlan(b, id) == FindPlan(a, id)
  {
    if a[0].id != id { FindPlanPrefix(a[1..], b[1..], id); }
  }

  lemma NewPlanAppended(g: Gov, e: Event)
    ensures g.plans <= ReducePlan(g, e).plans
  {
  }

  lemma QuietPlans(env: Env, g: Gov, e: Event)
    requires Reduce(env, g, e).Ok? && e.typ !in STEP_EVENTS && e.typ != "tool_plan"
    ensures Reduce(env, g, e).value.plans == g.plans
  {
    if e.typ == "user_intent" { IntentPlansSame(env, g, e); } else { OtherPlansSame(env, g, e); }
  }

  lemma PlanUntouched(env: Env, g: Gov, e: Event, k: nat)
    requires k < |g.plans| && FindPlan(g.plans, g.plans[k].id) == k && Outside(e, g.plans[k]) && Reduce(env, g, e).Ok?
    ensures var plans := Reduce(env, g, e).value.plans;
            k < |plans| && plans[k] == g.plans[k] && FindPlan(plans, g.plans[k].id) == k
  {
    var plans := Reduce(env, g, e).value.plans;
    if e.typ == "tool_plan" {
      NewPlanAppended(g, e);
      FindPlanPrefix(g.plans, plans, g.plans[k].id);
    } else if e.typ in STEP_EVENTS {
      ReducePlansStep(env, g, e);
      assert FindPlan(g.plans, e.planId) != k;
      FindPlanSame(g.plans, plans, g.plans[k].id);
    } else {
      QuietPlans(env, g, e);
    }
  }

  lemma IntentKeepsMeta(env: Env, g: Gov, e: Event, m: nat)
    requires m < |g.proposals|
    ensures ReduceIntent(env, g, e).Ok? ==> g.proposals <= ReduceIntent(env, g, e).value.proposals
  {
  }

  lemma OtherKeepsMeta(env: Env, g: Gov, e: Event, m: nat)
    requires m < |g.proposals| && e.typ != "tool_plan_result_binding"
    ensures var q := ReduceOther(env, g, e).proposals; m < |q| && q[m].meta == g.proposals[m].meta
  {
  }

  /** Only a binding changes what a proposal is for, and only of the proposals it names. */
  lemma MetaKept(env: Env, g: Gov, e: Event, m: nat)
    requires GovOk(g) && m < |g.proposals| && Reduce(env, g, e).Ok?
    requires e.typ == "tool_plan_result_binding" ==> !HasBinding(e.bindings, g.proposals[m].id)
    ensures var q := Reduce(env, g, e).value.proposals; m < |q| && q[m].meta == g.proposals[m].meta
  {
    if e.typ == "user_intent" {
      IntentKeepsMeta(env, g, e, m);
    } else if e.typ in PLAN_EVENTS {
      PlanEventKeeps(g, e);
    } else if e.typ == "tool_plan_result_binding" {
      var i := FindPlan(g.plans, e.planId);
      if i < |g.plans| { AllBoundProposal(g.proposals, g.plans[i].steps, g.plans[i].boundCount, e.bindings, e.at, m); }
    } else {
      OtherKeepsMeta(env, g, e, m);
    }
  }

  /** Receipts are only ever appended, each with the id of its place. */
  lemma ReceiptsAppended(env: Env, g: Gov, e: Event)
    requires GovOk(g) && ReceiptsOk(g.receipts) && Reduce(env, g, e).Ok?
    ensures var r := Reduce(env, g, e).value.receipts; g.receipts <= r && ReceiptsOk(r)
  {
    var i := FindProposal(g.proposals, e.proposalId);
    if e.typ == "execution_request" && i < |g.proposals| {
      RequestIssues(env, g, e, i);
    } else {
      OnlyRequestsIssue(env, g, e);
    }
  }

  lemma StepUntouched(env: Env, registry: Registry, g: Gov, e: Event, plan: Plan, i: nat)
    requires GovOk(g) && ReceiptsOk(g.receipts) && Reduce(env, g, e).Ok? && Outside(e, plan)
    requires i < |plan.steps| && StepOk(registry, g, plan.steps, i)
    ensures StepOk(registry, Reduce(env, g, e).value, plan.steps, i)
  {
    var g' := Reduce(env, g, e).value;
    var s := plan.steps[i];
    ReduceKeeps(env, g, e);
    ReceiptsAppended(env, g, e);
    if s.proposalId.Some? {
      var m := FindProposal(g.proposals, s.proposalId.value);
      forall j | 0 <= j < |g.proposals| ensures g'.proposals[j].id == g.proposals[j].id {
        assert ProposalStep(g.proposals, g'.proposals, j);
      }
      FindProposalStable(g.proposals, g'.proposals, s.proposalId.value);
      MetaKept(env, g, e, m);
      assert ProposalStep(g.proposals, g'.proposals, m);
    }
    if s.receiptId.Some? { FindReceiptStable(g.receipts, g'.receipts, s.receiptId.value); }
  }

  /** Events outside the plan leave the plan as it is and the invariant in place. */
  lemma OutsideKeeps(desk: Desk, g: Gov, k: nat, e: Event)
    requires PlanInv(desk, g, k) && Outside(e, g.plans[k]) && Reduce(desk.env, g, e).Ok?
    ensures var g' := Reduce(desk.env, g, e).value; PlanInv(desk, g', k) && g'.plans[k] == g.plans[k]
  {
    var g' := Reduce(desk.env, g, e).value;
    ReduceKeeps(desk.env, g, e);
    ReceiptsAppended(desk.env, g, e);
    PlanUntouched(desk.env, g, e, k);
    var steps := g.plans[k].steps;
    forall i ensures StepOk(desk.registry, g', steps, i) {
      assert StepOk(desk.registry, g, steps, i);
      if 0 <= i < |steps| { StepUntouched(desk.env, desk.registry, g, e, g.plans[k], i); }
    }
  }

  // --------------------------------------------------------- where work starts

  lemma ReachedReceiptsOk(env: Env, log: seq<Event>)
    ensures ReceiptsOk(Final(env, log).receipts)
  {
    var receipts := Final(env, log).receipts;
    forall i ensures ReceiptOk(receipts, i) {
      if 0 <= i < |receipts| {
        var k, m := ReceiptTraces(env, log, i);
        ReceiptHasSlot(env, i, receipts[i].proposalId, receipts[i].status, receipts[i].createdAt);
      }
    }
  }

  lemma ApprovalEffect(env: Env, g: Gov, e: Event, k: nat)
    requires GovOk(g) && k < |g.plans| && FindPlan(g.plans, g.plans[k].id) == k && PlanPending(g.plans[k])
    requires e.typ == "tool_plan_review" && e.planId == g.plans[k].id && Lower(e.decision) == "approved"
    ensures var out := Reduce(env, g, e);
            && out.Ok? && GovOk(out.value) && out.value.receipts == g.receipts
            && |out.value.plans| == |g.plans|
            && (forall i :: 0 <= i < |g.plans| ==> out.value.plans[i].id == g.plans[i].id)
            && out.value.plans[k].review == Some(Approved) && out.value.plans[k].steps == g.plans[k].steps
  {
    ReduceKeeps(env, g, e);
    assert Reduce(env, g, e) == Ok(ReducePlanReview(g, e));
  }

  /** A step nobody has worked on. */
  predicate Untried(s: PlanStep) {
    NoProposal(s) && s.executionStatus.None?
  }

  /** Approving a well-shaped plan no step of which was worked on establishes the invariant. */
  lemma ApprovalEstablishes(desk: Desk, log: seq<Event>, k: nat, e: Event)
    requires RegistryOk(desk.registry)
    requires var g := Final(desk.env, log);
             && k < |g.plans| && g.plans[k].id != "" && FindPlan(g.plans, g.plans[k].id) == k && PlanPending(g.plans[k])
             && ShapeOk(desk.registry, g.plans[k].steps)
             && (forall i :: 0 <= i < |g.plans[k].steps| ==> Untried(g.plans[k].steps[i]))
             && e.typ == "tool_plan_review" && e.planId == g.plans[k].id
             && Lower(e.decision) == "approved"
    ensures PlanInv(desk, Final(desk.env, log + [e]), k)
    ensures Final(desk.env, log + [e]).plans[k].steps == Final(desk.env, log).plans[k].steps
  {
    var g := Final(desk.env, log);
    FinalOk(desk.env, log);
    ReachedReceiptsOk(desk.env, log);
    ApprovalEffect(desk.env, g, e, k);
    assert (log + [e])[..|log|] == log;
    var g' := Final(desk.env, log + [e]);
    FindPlanSame(g.plans, g'.plans, g.plans[k].id);
    var steps := g'.plans[k].steps;
    forall i ensures StepOk(desk.registry, g', steps, i) {}
  }

  // ----------------------------------------------------- the handlers directly

  lemma {:induction false} NoneQueued(desk: Desk, g: Gov, plan: Plan, steps: seq<PlanStep>, prefix: Text)
    requires forall i :: 0 <= i < |steps| ==> !QueueCandidate(steps[i])
    ensures QueueProposals(desk, g, plan, steps, prefix) == (g, Ok([]))
  {
    if steps != [] { NoneQueued(desk, g, plan, steps[..|steps| - 1], prefix); }
  }

  lemma {:induction false} NoneExecuted(desk: Desk, g: Gov, plan: Plan, steps: seq<PlanStep>, reason: Text, now: Text)
    requires forall i :: 0 <= i < |steps| ==> !ExecutionCandidate(steps[i], g.proposals)
    ensures ExecuteProposals(desk, g, plan, steps, reason, now) == (g, Ok([]))
  {
    if steps != [] { NoneExecuted(desk, g, plan, steps[..|steps| - 1], reason, now); }
  }

  /** The queue handler, called at any time: it queues what there is to queue, and with
      nothing to queue it changes nothing. */
  lemma QueueDirect(desk: Desk, g: Gov, k: nat, prefix: Text, now: Text)
    requires PlanInv(desk, g, k)
    ensures var (g', answer) := QueueSteps(desk, g, g.plans[k].id, prefix, now);
            && NotBack(desk, g, g', k) && (answer == Done || answer == Nothing)
            && (answer == Done ==> Measure(g'.plans[k].steps) < Measure(g.plans[k].steps))
  {
    var steps := g.plans[k].steps;
    if i :| 0 <= i < |steps| && QueueCandidate(steps[i]) {
      QueueAdvances(desk, g, k, i, prefix, now);
    } else {
      NoneQueued(desk, g, g.plans[k], steps, prefix);
      NothingBack(desk, g, k);
    }
  }

  /** So does the execution handler. */
  lemma ExecuteDirect(desk: Desk, g: Gov, k: nat, reason: Text, now: Text)
    requires PlanInv(desk, g, k) && NonFailing(desk)
    ensures var (g', answer) := RequestExecution(desk, g, g.plans[k].id, reason, now);
            && NotBack(desk, g, g', k) && (answer == Done || answer == Nothing)
            && (answer == Done ==> Measure(g'.plans[k].steps) < Measure(g.plans[k].steps))
  {
    var steps := g.plans[k].steps;
    if i :| 0 <= i < |steps| && ExecutionCandidate(steps[i], g.proposals) {
      ExecutionAdvances(desk, g, k, i, reason, now);
    } else {
      NoneExecuted(desk, g, g.plans[k], steps, reason, now);
      NothingBack(desk, g, k);
    }
  }

  // ------------------------------------------------------------- mixed runs

  /** A guided advance, one of the three handlers called directly, or any other event. */
  datatype Move =
    | Guided(now: Text)
    | Queued(prefix: Text, now: Text)
    | Executed(reason: Text, now: Text)
    | BoundNow(now: Text)
    | Logged(event: Event)

  function DoMove(desk: Desk, g: Gov, planId: Text, move: Move): Gov {
    match move
    case Guided(now) => AdvancePlan(desk, g, planId, now).0
    case Queued(prefix, now) => QueueSteps(desk, g, planId, prefix, now).0
    case Executed(reason, now) => RequestExecution(desk, g, planId, reason, now).0
    case BoundNow(now) => BindResults(desk, g, planId, now).0
    case Logged(e) => Emit(desk, g, e)
  }

  /** A guided advance that took a step, or a direct call that queued or executed one. */
  predicate TakesStep(desk: Desk, g: Gov, plan: Plan, move: Move) {
    match move
    case Guided(_) => CanAdvance(NextAction(plan, g.proposals))
    case Queued(prefix, now) => QueueSteps(desk, g, plan.id, prefix, now).1 == Done
    case Executed(reason, now) => RequestExecution(desk, g, plan.id, reason, now).1 == Done
    case _ => false
  }

  /** Along the run the logged events stay outside the plan. */
  ghost predicate Leaves(desk: Desk, g: Gov, k: nat, moves: seq<Move>)
    requires k < |g.plans|
    decreases |moves|
  {
    moves == [] ||
    (&& (moves[0].Logged? ==> Outside(moves[0].event, g.plans[k]))
     && var g' := DoMove(desk, g, g.plans[k].id, moves[0]);
        k < |g'.plans| && Leaves(desk, g', k, moves[1..]))
  }

  /** How many of the moves took a step of the plan. */
  ghost function Effective(desk: Desk, g: Gov, k: nat, moves: seq<Move>): nat
    requires k < |g.plans| && Leaves(desk, g, k, moves)
    decreases |moves|
  {
    if moves == [] then 0
    else
      (if TakesStep(desk, g, g.plans[k], moves[0]) then 1 else 0)
      + Effective(desk, DoMove(desk, g, g.plans[k].id, moves[0]), k, moves[1..])
  }

  /** What a move leaves: the invariant, and no more to do than before, less if it took a step. */
  ghost predicate MovesOn(desk: Desk, g: Gov, g': Gov, k: nat, took: bool)
    requires k < |g.plans|
  {
    && GuidedInv(desk, g', k) && g'.plans[k].id == g.plans[k].id && |g'.plans[k].steps| == |g.plans[k].steps|
    && Measure(g'.plans[k].steps) + (if took then 1 else 0) <= Measure(g.plans[k].steps)
  }

  lemma DirectMovesOn(desk: Desk, g: Gov, g': Gov, k: nat, took: bool)
    requires GuidedInv(desk, g, k) && NotBack(desk, g, g', k)
    requires took ==> Measure(g'.plans[k].steps) < Measure(g.plans[k].steps)
    ensures MovesOn(desk, g, g', k, took)
  {
    SourcesKept(desk.registry, g.plans[k].steps, g'.plans[k].steps);
  }

  lemma MoveKeeps(desk: Desk, g: Gov, k: nat, move: Move)
    requires GuidedInv(desk, g, k) && NonFailing(desk) && (move.Logged? ==> Outside(move.event, g.plans[k]))
    ensures MovesOn(desk, g, DoMove(desk, g, g.plans[k].id, move), k, TakesStep(desk, g, g.plans[k], move))
  {
    var g' := DoMove(desk, g, g.plans[k].id, move);
    match move {
      case Guided(now) => AdvanceProgresses(desk, g, k, now);
      case Queued(prefix, now) =>
        QueueDirect(desk, g, k, prefix, now);
        DirectMovesOn(desk, g, g', k, TakesStep(desk, g, g.plans[k], move));
      case Executed(reason, now) =>
        ExecuteDirect(desk, g, k, reason, now);
        DirectMovesOn(desk, g, g', k, TakesStep(desk, g, g.plans[k], move));
      case BoundNow(now) =>
        BindingNotBack(desk, g, k, now);
        DirectMovesOn(desk, g, g', k, false);
      case Logged(e) => if Reduce(desk.env, g, e).Ok? { OutsideKeeps(desk, g, k, e); }
    }
  }

  /** Over the whole life of a plan, however guided advances, direct calls of the three
      handlers, human reviews and other events interleave: the invariant holds throughout,
      the work left never rises, and at most three moves per step take one. */
  lemma {:induction false} WholeLifeBounded(desk: Desk, g: Gov, k: nat, moves: seq<Move>)
    requires GuidedInv(desk, g, k) && NonFailing(desk) && Leaves(desk, g, k, moves)
    ensures Effective(desk, g, k, moves) <= Measure(g.plans[k].steps) <= 3 * |g.plans[k].steps|
    decreases |moves|
  {
    MeasureBound(g.plans[k].steps);
    if moves != [] {
      MoveKeeps(desk, g, k, moves[0]);
      WholeLifeBounded(desk, DoMove(desk, g, g.plans[k].id, moves[0]), k, moves[1..]);
    }
  }
}
