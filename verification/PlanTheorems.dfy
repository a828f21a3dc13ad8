/** What an event log can do to a tool plan. */
module PlanTheorems {
  import opened Collections
  import opened Governance
  import opened GovernanceProofs
  import opened GovernanceTheorems

  predicate NoProposal(s: PlanStep) {
    s.proposalId.None? && s.receiptId.None? && s.boundArguments.None?
  }

  /** What the planner builds: no review yet, nothing queued. */
  predicate FromPlanner(p: Plan) {
    p.review.None? && forall i :: 0 <= i < |p.steps| ==> NoProposal(p.steps[i])
  }

  /** The hypothesis on `tool_plan` events: their plans come from the planner. */
  ghost predicate PlannerBuilt(log: seq<Event>) {
    forall i :: 0 <= i < |log| && log[i].typ == "tool_plan" && log[i].plan.Some? ==> FromPlanner(log[i].plan.value)
  }

  predicate SameSteps(a: seq<PlanStep>, b: seq<PlanStep>) {
    |b| == |a| && forall i ::
        0 <= i < |a| ==> b[i].id == a[i].id && b[i].toolId == a[i].toolId && b[i].arguments == a[i].arguments
  }

  /** A decided plan keeps its decision; steps are never added, removed, or given another
      tool; only an approved plan's steps are queued or executed. */
  ghost predicate PlanEvolves(p: Plan, p': Plan) {
    && p'.id == p.id && p'.task == p.task && SameSteps(p.steps, p'.steps)
    && (!PlanPending(p) ==> p'.review == p.review)
    && (PlanPending(p') ==> p'.review == p.review)
    && (p.review != Some(Approved) ==> forall i :: 0 <= i < |p.steps| ==>
          p'.steps[i].proposalId == p.steps[i].proposalId && p'.steps[i].receiptId == p.steps[i].receiptId)
    && (p.review != Some(Approved) && NoneQueued(p.steps) ==> p'.steps == p.steps)
  }

  predicate NoneQueued(steps: seq<PlanStep>) {
    forall i :: 0 <= i < |steps| ==> steps[i].proposalId.None?
  }

  lemma {:induction false} QueuedSame(steps: seq<PlanStep>, ids: seq<Text>, queued: seq<QueuedStep>)
    ensures SameSteps(steps, AllQueued(steps, ids, queued).0)
    decreases |queued|
  {
    if queued != [] { QueuedSame(steps, ids, queued[..|queued| - 1]); }
  }

  lemma {:induction false} ExecutedSame(steps: seq<PlanStep>, ids: seq<Text>, executed: seq<ExecutedStep>)
    ensures SameSteps(steps, AllExecuted(steps, ids, executed).0)
    decreases |executed|
  {
    if executed != [] { ExecutedSame(steps, ids, executed[..|executed| - 1]); }
  }

  lemma {:induction false} BoundSame(q: seq<Proposal>, steps: seq<PlanStep>, count: nat, bindings: seq<Binding>,
                                     at: Option<Text>)
    ensures var s := AllBound(q, steps, count, bindings, at).1;
            && SameSteps(steps, s)
            && (forall i ::
                  0 <= i < |steps| ==> s[i].proposalId == steps[i].proposalId && s[i].receiptId == steps[i].receiptId)
            && (NoneQueued(steps) ==> s == steps)
    decreases |bindings|
  {
    if bindings != [] { BoundSame(q, steps, count, bindings[..|bindings| - 1], at); }
  }

  /** An event changes at most the first plan with the id it names, or adds one plan. */
  ghost predicate PlansStep(g: Gov, e: Event, plans: seq<Plan>) {
    || (plans == g.plans)
    || (e.typ == "tool_plan" && e.plan.Some? && |plans| == |g.plans| + 1 && plans[..|g.plans|] == g.plans
        && plans[|g.plans|]
           == e.plan.value.(review := if e.plan.value.review.None? then Some(Pending) else e.plan.value.review,
                            status := "pending_review"))
    || (var i := FindPlan(g.plans, e.planId);
        i < |g.plans| && |plans| == |g.plans| && plans == g.plans[i := plans[i]] && PlanEvolves(g.plans[i], plans[i]))
  }

  lemma AddedStep(g: Gov, e: Event)
    requires e.typ == "tool_plan"
    ensures PlansStep(g, e, ReducePlan(g, e).plans)
  {
  }

  lemma ReviewedStep(g: Gov, e: Event)
    ensures PlansStep(g, e, ReducePlanReview(g, e).plans)
  {
  }

  lemma StepQueueStep(g: Gov, e: Event)
    ensures PlansStep(g, e, ReduceStepQueue(g, e).plans)
  {
    var i := FindPlan(g.plans, e.planId);
    if i < |g.plans| { QueuedSame(g.plans[i].steps, g.plans[i].materialized, e.queued); }
  }

  lemma PlanExecutionStep(g: Gov, e: Event)
    ensures PlansStep(g, e, ReducePlanExecution(g, e).plans)
  {
    var i := FindPlan(g.plans, e.planId);
    if i < |g.plans| { ExecutedSame(g.plans[i].steps, g.plans[i].receiptIds, e.executed); }
  }

  lemma BindingStep(g: Gov, e: Event)
    ensures PlansStep(g, e, ReduceBinding(g, e).plans)
  {
    var i := FindPlan(g.plans, e.planId);
    if i < |g.plans| { BoundSame(g.proposals, g.plans[i].steps, g.plans[i].boundCount, e.bindings, e.at); }
  }

  lemma OtherPlansSame(env: Env, g: Gov, e: Event)
    requires e.typ != "tool_plan_result_binding"
    ensures ReduceOther(env, g, e).plans == g.plans
  {
  }

  lemma IntentPlansSame(env: Env, g: Gov, e: Event)
    ensures ReduceIntent(env, g, e).Ok? ==> ReduceIntent(env, g, e).value.plans == g.plans
  {
  }

  lemma ReducePlansStep(env: Env, g: Gov, e: Event)
    requires Reduce(env, g, e).Ok?
    ensures PlansStep(g, e, Reduce(env, g, e).value.plans)
  {
    if e.typ == "user_intent" { IntentPlansSame(env, g, e); }
    else if e.typ in PLAN_EVENTS {
      if e.typ == "tool_plan" { AddedStep(g, e); }
      else if e.typ == "tool_plan_review" { ReviewedStep(g, e); }
      else if e.typ == "tool_plan_step_queue" { StepQueueStep(g, e); }
      else { PlanExecutionStep(g, e); }
    }
    else if e.typ == "tool_plan_result_binding" { BindingStep(g, e); }
    else { OtherPlansSame(env, g, e); }
  }

  /** A plan that shares its id with an earlier one is out of reach: no event ever changes
      it.  The planner gives the same task the same id, so whoever logs a plan must first
      look for one with its id, as the two handlers do. */
  lemma {:induction false} ShadowedPlanFrozen(env: Env, g: Gov, log: seq<Event>, i: nat, j: nat)
    requires i < j < |g.plans| && g.plans[i].id == g.plans[j].id
    ensures var plans := After(env, g, log).plans;
            j < |plans| && plans[j] == g.plans[j] && plans[i].id == g.plans[i].id
    decreases |log|
  {
    if log != [] {
      var before := After(env, g, log[..|log| - 1]);
      ShadowedPlanFrozen(env, g, log[..|log| - 1], i, j);
      var e := log[|log| - 1];
      if Reduce(env, before, e).Ok? {
        ReducePlansStep(env, before, e);
        var k := FindPlan(before.plans, e.planId);
        assert k != j;
      }
    }
  }

  /** So once such a plan is waiting for review, something is pending for ever. */
  lemma ShadowedPlanStaysPending(env: Env, log: seq<Event>, more: seq<Event>, i: nat, j: nat)
    requires var g := Final(env, log); i < j < |g.plans| && g.plans[i].id == g.plans[j].id && PlanPending(g.plans[j])
    ensures Final(env, log + more).pendingCount >= 1
  {
    var g := Final(env, log);
    AfterConcat(env, BASELINE, log, more);
    ShadowedPlanFrozen(env, g, more, i, j);
    CountersAgree(env, log + more);
    var plans := Final(env, log + more).plans;
    assert j in PendingPlansAt(plans);
    assert |PendingPlansAt(plans)| >= |{j}| by { CardinalityAtLeastOne(PendingPlansAt(plans), j); }
  }

  lemma CardinalityAtLeastOne(s: set<int>, x: int)
    requires x in s
    ensures |s| >= 1
  {
  }

  ghost predicate PlanKept(plans: seq<Plan>, plans': seq<Plan>, i: int) {
    0 <= i < |plans| ==> i < |plans'| && plans'[i].id == plans[i].id && SameSteps(plans[i].steps, plans'[i].steps)
                         && (!PlanPending(plans[i]) ==> plans'[i].review == plans[i].review)
  }

  /** A decision on a plan is never revised, and its steps keep their tools and arguments. */
  lemma {:induction false} PlanDecisionStands(env: Env, g: Gov, log: seq<Event>, i: nat)
    requires i < |g.plans|
    ensures PlanKept(g.plans, After(env, g, log).plans, i)
    decreases |log|
  {
    if log != [] {
      var before := After(env, g, log[..|log| - 1]);
      PlanDecisionStands(env, g, log[..|log| - 1], i);
      var e := log[|log| - 1];
      if Reduce(env, before, e).Ok? {
        ReducePlansStep(env, before, e);
        var after := Reduce(env, before, e).value.plans;
        var k := FindPlan(before.plans, e.planId);
        assert after[i] == before.plans[i] || (i == k && PlanEvolves(before.plans[k], after[k]));
      }
    }
  }

  /** Until it is approved a plan has no step with a proposal or a receipt. */
  ghost predicate Untouched(p: Plan) {
    p.review != Some(Approved) ==> forall i ::
        0 <= i < |p.steps| ==> p.steps[i].proposalId.None? && p.steps[i].receiptId.None?
  }

  /** Nothing of a plan is queued or executed before the plan is approved, provided
      plans come from the planner. */
  lemma {:induction false} NothingQueuedBeforeApproval(env: Env, log: seq<Event>, i: nat)
    requires PlannerBuilt(log) && i < |Final(env, log).plans|
    ensures Untouched(Final(env, log).plans[i])
    decreases |log|
  {
    var n := |log| - 1;
    var before := Final(env, log[..n]);
    var e := log[n];
    if i < |before.plans| { NothingQueuedBeforeApproval(env, log[..n], i); }
    if Reduce(env, before, e).Ok? {
      ReducePlansStep(env, before, e);
      var after := Final(env, log).plans;
      var k := FindPlan(before.plans, e.planId);
      if i < |before.plans| {
        assert after[i] == before.plans[i] || (i == k && PlanEvolves(before.plans[k], after[k]));
      } else {
        assert FromPlanner(e.plan.value);
      }
    }
  }

  /** Until it is approved, a plan has exactly the steps it was logged with. */
  lemma {:induction false} StepsAsLogged(env: Env, log: seq<Event>, i: nat) returns (j: nat)
    requires PlannerBuilt(log) && i < |Final(env, log).plans| && Final(env, log).plans[i].review != Some(Approved)
    ensures j < |log| && log[j].typ == "tool_plan" && log[j].plan.Some?
    ensures Final(env, log).plans[i].steps == log[j].plan.value.steps
    decreases |log|
  {
    var n := |log| - 1;
    var before := Final(env, log[..n]);
    var e := log[n];
    var after := Final(env, log).plans;
    if Reduce(env, before, e).Ok? { ReducePlansStep(env, before, e); }
    if i < |before.plans| {
      var k := FindPlan(before.plans, e.planId);
      assert after[i] == before.plans[i] || (i == k && PlanEvolves(before.plans[k], after[k]));
      NothingQueuedBeforeApproval(env, log[..n], i);
      j := StepsAsLogged(env, log[..n], i);
    } else {
      j := n;
    }
  }
}
