/** The reducer as the program runs it: the state is copied, then the copy's queues
    and plan steps are assigned to in place.  Every method is proved to do what the
    function of `Governance` it corresponds to says. */
module GovernanceReducer {
  import opened Collections
  import opened Governance
  import opened EventLog

  class GovState {
    var agentMode: bool
    var proposals: seq<Proposal>
    var receipts: seq<Receipt>
    var plans: seq<Plan>
    var pendingCount: nat
    var memoryCount: nat
    var toolCount: nat
    var externalActionExecuted: bool

    ghost function View(): Gov
      reads this
    {
      Gov(agentMode, proposals, receipts, plans, pendingCount, memoryCount, toolCount, externalActionExecuted)
    }

    /** `deepcopy`. */
    constructor Copy(s: GovState)
      ensures View() == s.View()
    {
      agentMode, proposals, receipts, plans := s.agentMode, s.proposals, s.receipts, s.plans;
      pendingCount, memoryCount, toolCount := s.pendingCount, s.memoryCount, s.toolCount;
      externalActionExecuted := s.externalActionExecuted;
    }

    method Current() returns (g: Gov)
      ensures g == View()
    {
      return Gov(agentMode, proposals, receipts, plans, pendingCount, memoryCount, toolCount, externalActionExecuted);
    }

    method CountPendingPlans() returns (n: nat)
      ensures n == PendingPlans(plans)
    {
      n := 0;
      for i := 0 to |plans|
        invariant n == PendingPlans(plans[..i])
      {
        assert plans[..i + 1][..i] == plans[..i];
        if PlanPending(plans[i]) { n := n + 1; }
      }
      assert plans[..|plans|] == plans;
    }

    method RefreshProposalCounts()
      modifies this`pendingCount, this`memoryCount, this`toolCount
      ensures View() == Refresh(old(View()))
    {
      ghost var was := View();
      var pendingPlans := CountPendingPlans();
      var all := PendingCount(proposals);
      var memory := PendingOfKind(proposals, Memory);
      var action := PendingOfKind(proposals, Action);
      pendingCount, memoryCount, toolCount := all + pendingPlans, memory, action + pendingPlans;
      assert View() == was.(pendingCount := all + pendingPlans, memoryCount := memory,
                            toolCount := action + pendingPlans);
    }

    method FindProposal(id: Text) returns (i: nat)
      ensures i == Governance.FindProposal(proposals, id)
    {
      i := IndexOf(proposals, id);
    }

    method FindPlan(id: Text) returns (i: nat)
      ensures i == Governance.FindPlan(plans, id)
    {
      i := 0;
      while i < |plans| && plans[i].id != id
        invariant i <= |plans| && forall k :: 0 <= k < i ==> plans[k].id != id
      {
        i := i + 1;
      }
    }

    method AppendProposal(p: Proposal)
      modifies this
      ensures View() == Enqueue(old(View()), p)
    {
      proposals := proposals + [p];
      RefreshProposalCounts();
    }

    method ReduceIntent(env: Env, e: Event) returns (out: Outcome<(), Fault>)
      modifies this
      ensures out.Ok? == Governance.ReduceIntent(env, old(View()), e).Ok?
      ensures if out.Ok? then View() == Governance.ReduceIntent(env, old(View()), e).value
              else View() == old(View()) && out.error == Governance.ReduceIntent(env, old(View()), e).error
    {
      var classified := env.classify(e.intent, agentMode);
      var actionClass := if e.policy.Some? then e.policy.value.actionClass else Some(classified.0);
      var reasons := if e.policy.Some? then e.policy.value.reasons else classified.1;
      if e.actionClass.Some? { actionClass := e.actionClass; }
      if actionClass.None? { return Raised(MissingActionClass); }
      if Truthy(e.meta.toolId) || (agentMode && actionClass.value in GOVERNED_CLASSES) {
        var kind := if e.meta.toolId == Some("memory.propose") then Memory else Action;
        externalActionExecuted := false;
        AppendProposal(BuildProposal(env, |proposals|, e.intent, actionClass.value, reasons, kind, e.meta));
      }
      return Ok(());
    }

    method ReduceReview(e: Event)
      modifies this
      ensures View() == Governance.ReduceReview(old(View()), e)
    {
      var decision := Decision(e.decision);
      if decision.None? { return; }
      var i := FindProposal(e.proposalId);
      if i == |proposals| || proposals[i].review != Pending { return; }
      proposals := proposals[i := ReviewedAs(proposals[i], decision.value, e.reason, EventTime(e))];
      externalActionExecuted := false;
      RefreshProposalCounts();
    }

    method ReduceExecution(env: Env, e: Event)
      modifies this
      ensures View() == Governance.ReduceExecution(env, old(View()), e)
    {
      var i := FindProposal(e.proposalId);
      if i == |proposals| { return; }
      receipts := receipts + [BuildReceipt(env, |receipts|, proposals[i], EventTime(e), e.reason, e.dryRun, e.output)];
      externalActionExecuted := false;
    }

    method ReducePlanReview(e: Event)
      modifies this
      ensures View() == Governance.ReducePlanReview(old(View()), e)
    {
      var decision := Decision(Lower(e.decision));
      if decision.None? { return; }
      var i := FindPlan(e.planId);
      if i == |plans| || !PlanPending(plans[i]) { return; }
      var reason := if e.reason.Some? then e.reason.value else "";
      plans := plans[i := plans[i].(review := Some(decision.value), reviewedAt := e.at, status := "reviewed",
                                    receipt := Some(PlanReceipt(plans[i].id, decision.value, |plans[i].steps|,
                                                                reason)))];
      externalActionExecuted := false;
      RefreshProposalCounts();
    }

    method ReduceStepQueue(e: Event)
      modifies this
      ensures View() == Governance.ReduceStepQueue(old(View()), e)
    {
      if e.planId == "" || e.queued == [] { return; }
      var i := FindPlan(e.planId);
      if i == |plans| || plans[i].review != Some(Approved) { return; }
      var steps, ids := QueueEach(plans[i].steps, plans[i].materialized, e.queued);
      plans := plans[i := plans[i].(steps := steps, materialized := ids, lastMaterializedAt := e.at,
                                    status := if ids != [] then "steps_queued" else plans[i].status)];
      externalActionExecuted := false;
      RefreshProposalCounts();
    }

    method ReducePlanExecution(e: Event)
      modifies this
      ensures View() == Governance.ReducePlanExecution(old(View()), e)
    {
      if e.planId == "" || e.executed == [] { return; }
      var i := FindPlan(e.planId);
      if i == |plans| || plans[i].review != Some(Approved) { return; }
      var steps, ids := ExecuteEach(plans[i].steps, plans[i].receiptIds, e.executed);
      plans := plans[i := plans[i].(steps := steps, receiptIds := ids, lastRequestedAt := e.at,
                                    status := if ids != [] then "execution_requested" else plans[i].status)];
      externalActionExecuted := false;
      RefreshProposalCounts();
    }

    method ReduceBinding(e: Event)
      modifies this
      ensures View() == Governance.ReduceBinding(old(View()), e)
    {
      if e.planId == "" || e.bindings == [] { return; }
      var i := FindPlan(e.planId);
      if i == |plans| { return; }
      var queue, steps, count := BindEach(proposals, plans[i].steps, plans[i].boundCount, e.bindings, e.at);
      proposals := queue;
      plans := plans[i := plans[i].(steps := steps, boundCount := count, lastBoundAt := e.at)];
      externalActionExecuted := false;
      RefreshProposalCounts();
    }

    method ReduceMemory(env: Env, e: Event)
      modifies this
      ensures View() == Governance.ReduceMemory(env, old(View()), e)
    {
      if e.operation != "propose" { return; }
      var intent := if e.memoryId == "" then "memory proposal" else e.memoryId;
      AppendProposal(BuildProposal(env, |proposals|, intent, "propose_memory", ["memory proposal requires review"],
                                   Memory, NO_META));
    }

    method ReducePlan(e: Event)
      modifies this
      ensures View() == Governance.ReducePlan(old(View()), e)
    {
      if e.plan.None? { return; }
      var plan := e.plan.value;
      if plan.review.None? { plan := plan.(review := Some(Pending)); }
      plans := plans + [plan.(status := "pending_review")];
      externalActionExecuted := false;
      RefreshProposalCounts();
    }

    method ReduceSwitch(e: Event)
      modifies this
      ensures View() == Governance.ReduceSwitch(old(View()), e)
    {
      if e.typ == "button_event" && e.control == "am_fm" {
        agentMode := e.value in {"fm", "agent"};
      } else if e.typ == "tool_control_toggle" && e.control in {"tool_usage", "boh_mcp", "project_atlas_mcp"} {
        externalActionExecuted := false;
      }
    }

    method ReducePlanEvent(e: Event)
      modifies this
      ensures View() == Governance.ReducePlanEvent(old(View()), e)
    {
      if e.typ == "tool_plan" { ReducePlan(e); }
      else if e.typ == "tool_plan_review" { ReducePlanReview(e); }
      else if e.typ == "tool_plan_step_queue" { ReduceStepQueue(e); }
      else { ReducePlanExecution(e); }
    }

    method ReduceOther(env: Env, e: Event)
      modifies this
      ensures View() == Governance.ReduceOther(env, old(View()), e)
    {
      if e.typ == "memory_event" { ReduceMemory(env, e); }
      else if e.typ == "proposal_review" { ReduceReview(e); }
      else if e.typ == "execution_request" { ReduceExecution(env, e); }
      else if e.typ == "tool_plan_result_binding" { ReduceBinding(e); }
      else { ReduceSwitch(e); }
    }

    /** What a validated event does to the governance fields. */
    method Take(env: Env, e: Event) returns (out: Outcome<(), Fault>)
      modifies this
      ensures out.Ok? == Reduce(env, old(View()), e).Ok?
      ensures if out.Ok? then View() == Reduce(env, old(View()), e).value
              else out.error == Reduce(env, old(View()), e).error
    {
      out := Ok(());
      if e.typ == "user_intent" { out := ReduceIntent(env, e); }
      else if e.typ in PLAN_EVENTS { ReducePlanEvent(e); }
      else { ReduceOther(env, e); }
    }
  }

  /** The whole state: the governance fields, every other field (`panel`), the event log
      and the time of the last event. */
  class MetisState<!P> {
    const gov: GovState
    var panel: P
    var log: seq<Event>
    var timestamp: Option<Text>

    ghost function View(): State<P>
      reads this, gov
    {
      State(gov.View(), panel, log, timestamp)
    }

    /** `deepcopy`. */
    constructor Copy(s: MetisState<P>)
      ensures View() == s.View() && fresh(gov)
    {
      gov := new GovState.Copy(s.gov);
      panel, log, timestamp := s.panel, s.log, s.timestamp;
    }

    /** The event is logged first; the state is of no use when a reducer raises. */
    method Take(m: Machine<P>, e: Event) returns (out: Outcome<(), Fault>)
      requires ValidateEvent(e) == Ok(e)
      modifies this, gov
      ensures out.Ok? == ReduceEvent(m, old(View()), e).Ok?
      ensures if out.Ok? then View() == ReduceEvent(m, old(View()), e).value
              else out == Raised(ReduceEvent(m, old(View()), e).error)
    {
      if e.timestamp.Some? { timestamp := e.timestamp; }
      log := log + [e];
      ghost var was := gov.View();
      var before := gov.Current();
      out := gov.Take(m.env, e);
      if out.Raised? { return; }
      var after := gov.Current();
      var changed := m.panel(before, after, panel, e);
      if changed.Raised? { return Raised(changed.error); }
      panel := changed.value;
    }
  }

  /** `reduce_metis_event`: the given state is left as it was, the new one is a changed
      copy with the event at the end of its log; an event that raises yields no state. */
  method ReduceMetisEvent<P>(m: Machine<P>, state: MetisState<P>, raw: Event)
    returns (out: Outcome<MetisState<P>, Fault>)
    ensures out.Ok? == ReduceEvent(m, state.View(), raw).Ok?
    ensures if out.Ok?
            then fresh(out.value) && fresh(out.value.gov) && out.value.View() == ReduceEvent(m, state.View(), raw).value
            else out.error == ReduceEvent(m, state.View(), raw).error
    ensures state.View() == old(state.View())
  {
    var checked := ValidateEvent(raw);
    if checked.Raised? { return Raised(checked.error); }
    EventLog.ValidateIdempotent(raw);
    var next := new MetisState.Copy(state);
    var taken := next.Take(m, checked.value);
    return if taken.Raised? then Raised(taken.error) else Ok(next);
  }

  method PendingCount(queue: seq<Proposal>) returns (n: nat)
    ensures n == PendingProposals(queue)
  {
    n := 0;
    for i := 0 to |queue|
      invariant n == PendingProposals(queue[..i])
    {
      assert queue[..i + 1][..i] == queue[..i];
      if IsPending(queue[i]) { n := n + 1; }
    }
    assert queue[..|queue|] == queue;
  }

  method PendingOfKind(queue: seq<Proposal>, kind: Kind) returns (n: nat)
    ensures n == PendingProposals(OfKind(queue, kind))
  {
    var kept := FilterKind(queue, kind);
    n := PendingCount(kept);
  }

  method FilterKind(queue: seq<Proposal>, kind: Kind) returns (kept: seq<Proposal>)
    ensures kept == OfKind(queue, kind)
  {
    kept := [];
    for i := 0 to |queue|
      invariant kept == OfKind(queue[..i], kind)
    {
      assert queue[..i + 1][..i] == queue[..i];
      if queue[i].kind == kind { kept := kept + [queue[i]]; }
    }
    assert queue[..|queue|] == queue;
  }

  method QueueEach(steps0: seq<PlanStep>, ids0: seq<Text>, queued: seq<QueuedStep>)
    returns (steps: seq<PlanStep>, ids: seq<Text>)
    ensures (steps, ids) == AllQueued(steps0, ids0, queued)
  {
    steps, ids := steps0, ids0;
    for k := 0 to |queued|
      invariant (steps, ids) == AllQueued(steps0, ids0, queued[..k])
    {
      assert queued[..k + 1][..k] == queued[..k];
      var entry := queued[k];
      if Truthy(entry.proposalId) && entry.proposalId.value !in ids { ids := ids + [entry.proposalId.value]; }
      ghost var was := steps;
      for j := 0 to |steps|
        invariant |steps| == |was|
        invariant forall i :: 0 <= i < j ==> steps[i] == StepQueued(was[i], entry)
        invariant forall i :: j <= i < |was| ==> steps[i] == was[i]
      {
        if steps[j].id == entry.stepId {
          steps := steps[j := steps[j].(proposalId := entry.proposalId, status := "proposal_queued")];
        }
      }
      assert steps == StepsQueued(was, entry);
    }
    assert queued[..|queued|] == queued;
  }

  method ExecuteEach(steps0: seq<PlanStep>, ids0: seq<Text>, executed: seq<ExecutedStep>)
    returns (steps: seq<PlanStep>, ids: seq<Text>)
    ensures (steps, ids) == AllExecuted(steps0, ids0, executed)
  {
    steps, ids := steps0, ids0;
    for k := 0 to |executed|
      invariant (steps, ids) == AllExecuted(steps0, ids0, executed[..k])
    {
      assert executed[..k + 1][..k] == executed[..k];
      var entry := executed[k];
      if Truthy(entry.receiptId) && entry.receiptId.value !in ids { ids := ids + [entry.receiptId.value]; }
      ghost var was := steps;
      for j := 0 to |steps|
        invariant |steps| == |was|
        invariant forall i :: 0 <= i < j ==> steps[i] == StepExecuted(was[i], entry)
        invariant forall i :: j <= i < |was| ==> steps[i] == was[i]
      {
        if steps[j].proposalId == entry.proposalId {
          steps := steps[j := steps[j].(receiptId := entry.receiptId, executionStatus := entry.executionStatus)];
        }
      }
      assert steps == StepsExecuted(was, entry);
    }
    assert executed[..|executed|] == executed;
  }

  method BindEach(queue0: seq<Proposal>, steps0: seq<PlanStep>, count0: nat, bindings: seq<Binding>, at: Option<Text>)
    returns (queue: seq<Proposal>, steps: seq<PlanStep>, count: nat)
    ensures (queue, steps, count) == AllBound(queue0, steps0, count0, bindings, at)
  {
    queue, steps, count := queue0, steps0, count0;
    for k := 0 to |bindings|
      invariant (queue, steps, count) == AllBound(queue0, steps0, count0, bindings[..k], at)
    {
      assert bindings[..k + 1][..k] == bindings[..k];
      queue, steps, count := BindOne(queue, steps, count, bindings[k], at);
      BoundOne(queue0, steps0, count0, bindings, k, at);
    }
    assert bindings[..|bindings|] == bindings;
  }

  lemma BoundOne(queue: seq<Proposal>, steps: seq<PlanStep>, count: nat, bindings: seq<Binding>, k: nat,
                 at: Option<Text>)
    requires k < |bindings|
    ensures var (q, s, n) := AllBound(queue, steps, count, bindings[..k], at);
            AllBound(queue, steps, count, bindings[..k + 1], at) == AllBound(q, s, n, [bindings[k]], at)
  {
    assert bindings[..k + 1][..k] == bindings[..k] && [bindings[k]][..0] == [];
  }

  method BindOne(queue0: seq<Proposal>, steps0: seq<PlanStep>, count0: nat, b: Binding, at: Option<Text>)
    returns (queue: seq<Proposal>, steps: seq<PlanStep>, count: nat)
    ensures (queue, steps, count) == AllBound(queue0, steps0, count0, [b], at)
  {
    queue, steps, count := queue0, steps0, count0;
    assert [b][..0] == [];
    var i := IndexOf(queue, b.proposalId);
    if i < |queue| && queue[i].review == Pending {
      queue := queue[i := queue[i].(meta := queue[i].meta.(toolArguments := Some(b.arguments)),
                                    binding := Some(BindingOf(b, at)))];
      steps, count := BindSteps(steps, count, b, at);
    }
  }

  method IndexOf(queue: seq<Proposal>, id: Text) returns (i: nat)
    ensures i == Governance.FindProposal(queue, id)
  {
    i := 0;
    while i < |queue| && queue[i].id != id
      invariant i <= |queue| && forall m :: 0 <= m < i ==> queue[m].id != id
    {
      i := i + 1;
    }
  }

  method BindSteps(steps0: seq<PlanStep>, count0: nat, b: Binding, at: Option<Text>)
    returns (steps: seq<PlanStep>, count: nat)
    ensures steps == StepsBound(steps0, b, at) && count == count0 + StepsOf(steps0, b.proposalId)
  {
    steps, count := steps0, count0;
    for j := 0 to |steps|
      invariant |steps| == |steps0| && count == count0 + StepsOf(steps0[..j], b.proposalId)
      invariant forall i :: 0 <= i < j ==> steps[i] == StepBound(steps0[i], b, at)
      invariant forall i :: j <= i < |steps0| ==> steps[i] == steps0[i]
    {
      assert steps0[..j + 1][..j] == steps0[..j];
      if steps[j].proposalId == Some(b.proposalId) {
        steps := steps[j := steps[j].(boundArguments := Some(b.arguments), binding := Some(BindingOf(b, at)),
                                      status := "result_bound")];
        count := count + 1;
      }
    }
    assert steps0[..|steps0|] == steps0;
  }
}
