/** The plan handlers as the program runs them: the global state is replaced step by
    step while loops collect what was queued, executed or bound. */
module PlanHandlers {
  import opened Collections
  import opened Governance
  import opened ToolArguments
  import opened PlanRunner

  class PlanDesk {
    const desk: Desk
    var state: Gov

    constructor (desk: Desk, state: Gov)
      ensures this.desk == desk && this.state == state
    {
      this.desk, this.state := desk, state;
    }

    method ToolPlanById(id: Text) returns (i: nat)
      ensures i == FindPlan(state.plans, id)
    {
      i := 0;
      while i < |state.plans| && state.plans[i].id != id
        invariant i <= |state.plans| && forall k :: 0 <= k < i ==> state.plans[k].id != id
      {
        i := i + 1;
      }
    }

    method QueueEach(plan: Plan, prefix: Text) returns (queued: Outcome<seq<QueuedStep>, ToolError>)
      modifies this`state
      ensures (state, queued) == QueueProposals(desk, old(state), plan, plan.steps, prefix)
    {
      var entries: seq<QueuedStep> := [];
      for i := 0 to |plan.steps|
        invariant (state, Ok(entries)) == QueueProposals(desk, old(state), plan, plan.steps[..i], prefix)
      {
        assert plan.steps[..i + 1][..i] == plan.steps[..i];
        var s := plan.steps[i];
        if QueueCandidate(s) {
          var event := ProposalEvent(desk.registry, s.toolId.value, s.arguments, StepReason(plan, s, prefix),
                                     state.agentMode);
          if event.Raised? {
            QueueFailed(desk, old(state), plan, i + 1, prefix);
            return Raised(event.error);
          }
          state := Emit(desk, state, event.value);
          var id := if state.proposals == [] then None else Some(state.proposals[|state.proposals| - 1].id);
          entries := entries + [QueuedStep(s.id, id)];
        }
      }
      assert plan.steps[..|plan.steps|] == plan.steps;
      return Ok(entries);
    }

    method QueueToolPlanSteps(planId: Text, prefix: Text, now: Text) returns (answer: Answer)
      modifies this`state
      ensures (state, answer) == QueueSteps(desk, old(state), planId, prefix, now)
    {
      var k := ToolPlanById(planId);
      if k == |state.plans| { return NotFound; }
      if state.plans[k].review != Some(Approved) { return Conflict; }
      var queued := QueueEach(state.plans[k], prefix);
      if queued.Raised? { return BadRequest; }
      if queued.value == [] { return Nothing; }
      state := Emit(desk, state,
                    BLANK_EVENT.(typ := "tool_plan_step_queue", planId := planId, queued := queued.value,
                                 at := Some(now)));
      return Done;
    }

    method ExecuteEach(plan: Plan, reason: Text, now: Text) returns (executed: Outcome<seq<ExecutedStep>, ()>)
      modifies this`state
      ensures (state, executed) == ExecuteProposals(desk, old(state), plan, plan.steps, reason, now)
    {
      var entries: seq<ExecutedStep> := [];
      for i := 0 to |plan.steps|
        invariant (state, Ok(entries)) == ExecuteProposals(desk, old(state), plan, plan.steps[..i], reason, now)
      {
        assert plan.steps[..i + 1][..i] == plan.steps[..i];
        var s := plan.steps[i];
        if ExecutionCandidate(s, state.proposals) {
          var p := state.proposals[FindProposal(state.proposals, s.proposalId.value)];
          var out := ExecuteStep(desk, state, s, p, if reason == "" then "plan " + plan.id + " " + s.id else reason,
                                 now);
          if out.Raised? {
            ExecuteFailed(desk, old(state), plan, i + 1, reason, now);
            return Raised(());
          }
          state, entries := out.value.0, entries + [out.value.1];
        }
      }
      assert plan.steps[..|plan.steps|] == plan.steps;
      return Ok(entries);
    }

    method RequestToolPlanExecution(planId: Text, reason: Text, now: Text) returns (answer: Answer)
      modifies this`state
      ensures (state, answer) == RequestExecution(desk, old(state), planId, reason, now)
    {
      var k := ToolPlanById(planId);
      if k == |state.plans| { return NotFound; }
      if state.plans[k].review != Some(Approved) { return Conflict; }
      var executed := ExecuteEach(state.plans[k], reason, now);
      if executed.Raised? { return BadRequest; }
      if executed.value == [] { return Nothing; }
      state := Emit(desk, state,
                    BLANK_EVENT.(typ := "tool_plan_execution_request", planId := planId, executed := executed.value,
                                 at := Some(now)));
      return Done;
    }

    method PlanResultBindings(steps: seq<PlanStep>) returns (bindings: seq<Binding>)
      ensures bindings == Bindings(desk, state, steps)
    {
      bindings := [];
      var source: Option<PlanStep> := None;
      for i := 0 to |steps|
        invariant bindings == Bindings(desk, state, steps[..i])
        invariant source == Source(state.receipts, steps[..i])
                  && (source.Some? ==> IsSource(state.receipts, source.value))
      {
        assert steps[..i + 1][..i] == steps[..i];
        var s := steps[i];
        if IsSource(state.receipts, s) { source := Some(s); }
        if WantsBinding(s, state.proposals) && source.Some? {
          bindings := bindings + [BindingFrom(desk, state.receipts, source.value, s.proposalId.value)];
        }
      }
      assert steps[..|steps|] == steps;
    }

    method BindToolPlanResults(planId: Text, now: Text) returns (answer: Answer)
      modifies this`state
      ensures (state, answer) == BindResults(desk, old(state), planId, now)
    {
      var k := ToolPlanById(planId);
      if k == |state.plans| { return NotFound; }
      var plan := state.plans[k];
      if plan.review != Some(Approved) { return Conflict; }
      var bindings := PlanResultBindings(plan.steps);
      if bindings == [] { return Nothing; }
      state := Emit(desk, state,
                    BLANK_EVENT.(typ := "tool_plan_result_binding", planId := planId, bindings := bindings,
                                 at := Some(now)));
      return Done;
    }

    method AdvanceToolPlan(planId: Text, now: Text) returns (out: Advance)
      modifies this`state
      ensures (state, out) == AdvancePlan(desk, old(state), planId, now)
    {
      var k := ToolPlanById(planId);
      if k == |state.plans| { return NoPlan; }
      var action := NextPlanAction(state.plans[k], state.proposals);
      if action.CanQueue? {
        var answer := QueueToolPlanSteps(planId, "guided advance queued step proposals; ", now);
        return Advanced(action, answer);
      } else if action.CanExecute? {
        var answer := RequestToolPlanExecution(planId, "guided advance requested approved step execution", now);
        return Advanced(action, answer);
      } else if action.CanBind? {
        var answer := BindToolPlanResults(planId, now);
        return Advanced(action, answer);
      }
      return Waiting(action);
    }
  }

  /** Once queueing has failed, the later steps are not reached. */
  lemma {:induction false} QueueFailed(desk: Desk, g: Gov, plan: Plan, n: nat, prefix: Text)
    requires n <= |plan.steps| && QueueProposals(desk, g, plan, plan.steps[..n], prefix).1.Raised?
    ensures QueueProposals(desk, g, plan, plan.steps, prefix) == QueueProposals(desk, g, plan, plan.steps[..n], prefix)
    decreases |plan.steps| - n
  {
    if n < |plan.steps| {
      assert plan.steps[..n + 1][..n] == plan.steps[..n];
      QueueFailed(desk, g, plan, n + 1, prefix);
    } else {
      assert plan.steps[..n] == plan.steps;
    }
  }

  lemma {:induction false} ExecuteFailed(desk: Desk, g: Gov, plan: Plan, n: nat, reason: Text, now: Text)
    requires n <= |plan.steps| && ExecuteProposals(desk, g, plan, plan.steps[..n], reason, now).1.Raised?
    ensures ExecuteProposals(desk, g, plan, plan.steps, reason, now)
            == ExecuteProposals(desk, g, plan, plan.steps[..n], reason, now)
    decreases |plan.steps| - n
  {
    if n < |plan.steps| {
      assert plan.steps[..n + 1][..n] == plan.steps[..n];
      ExecuteFailed(desk, g, plan, n + 1, reason, now);
    } else {
      assert plan.steps[..n] == plan.steps;
    }
  }
}
