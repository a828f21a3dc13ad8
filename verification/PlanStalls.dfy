/** When an announced binding is made: the runner announces one as soon as an earlier step
    has any receipt, the handler makes one only from a receipt it can use. */
module PlanStalls {
  import opened Collections
  import opened Governance
  import opened GovernanceProofs
  import opened PlanRunner
  import opened PlanInvariant
  import opened PlanBinding
  import opened PlanAdvance
  import opened PlanLife

  // ----------------------------------------------------- the exact condition

  /** Step `i` wants a binding, and a step up to it has a receipt that can be bound. */
  predicate CanMake(g: Gov, steps: seq<PlanStep>, i: nat)
    requires i < |steps|
  {
    WantsBinding(steps[i], g.proposals) && Source(g.receipts, steps[..i + 1]).Some?
  }

  lemma {:induction false} MadeIff(desk: Desk, g: Gov, steps: seq<PlanStep>, n: nat)
    requires n <= |steps|
    ensures Bindings(desk, g, steps[..n]) != [] <==> exists i :: 0 <= i < n && CanMake(g, steps, i)
    decreases n
  {
    if n > 0 {
      assert steps[..n][..n - 1] == steps[..n - 1];
      MadeIff(desk, g, steps, n - 1);
      if CanMake(g, steps, n - 1) { SourceIsSource(g.receipts, steps[..n]); }
    }
  }

  /** For every approved plan that is first with its id: an announced binding is made if
      and only if a step that wants one has a usable receipt up to it; otherwise the
      advance changes nothing, and will announce the same again. */
  lemma AnnouncedBindingMadeIff(desk: Desk, g: Gov, k: nat, now: Text)
    requires k < |g.plans| && FindPlan(g.plans, g.plans[k].id) == k && g.plans[k].review == Some(Approved)
    requires NextAction(g.plans[k], g.proposals).CanBind?
    ensures var (g', out) := AdvancePlan(desk, g, g.plans[k].id, now);
            var steps := g.plans[k].steps;
            && out.Advanced? && (out.answer == Done || out.answer == Nothing)
            && (out.answer == Done <==> exists i :: 0 <= i < |steps| && CanMake(g, steps, i))
            && (out.answer == Nothing ==> g' == g)
  {
    var steps := g.plans[k].steps;
    MadeIff(desk, g, steps, |steps|);
    assert steps[..|steps|] == steps;
  }

  /** A binding is made for this proposal. */
  ghost predicate MadeFor(g: Gov, steps: seq<PlanStep>, n: nat, id: Text)
    requires n <= |steps|
  {
    exists j :: 0 <= j < n && CanMake(g, steps, j) && steps[j].proposalId == Some(id)
  }

  lemma {:induction false} MadeForIff(desk: Desk, g: Gov, steps: seq<PlanStep>, n: nat, id: Text)
    requires n <= |steps|
    ensures HasBinding(Bindings(desk, g, steps[..n]), id) <==> MadeFor(g, steps, n, id)
    decreases n
  {
    if n > 0 {
      assert steps[..n][..n - 1] == steps[..n - 1];
      MadeForIff(desk, g, steps, n - 1, id);
      LastBinding(desk, g, steps, n - 1);
      LastMadeFor(g, steps, n - 1, id);
      var made := Bindings(desk, g, steps[..n]);
      if CanMake(g, steps, n - 1) { assert made[..|made| - 1] == Bindings(desk, g, steps[..n - 1]); }
    }
  }

  lemma LastBinding(desk: Desk, g: Gov, steps: seq<PlanStep>, n: nat)
    requires n < |steps|
    ensures var made, rest := Bindings(desk, g, steps[..n + 1]), Bindings(desk, g, steps[..n]);
            if CanMake(g, steps, n)
            then |made| == |rest| + 1 && made[..|rest|] == rest && Some(made[|rest|].proposalId) == steps[n].proposalId
            else made == rest
  {
    assert steps[..n + 1][..n] == steps[..n];
    if CanMake(g, steps, n) { SourceIsSource(g.receipts, steps[..n + 1]); }
  }

  lemma LastMadeFor(g: Gov, steps: seq<PlanStep>, n: nat, id: Text)
    requires n < |steps|
    ensures MadeFor(g, steps, n + 1, id)
            <==> MadeFor(g, steps, n, id) || (CanMake(g, steps, n) && steps[n].proposalId == Some(id))
  {
  }

  /** A step for which the handler's binding is work done: it waited for one. */
  ghost predicate Gains(g: Gov, steps: seq<PlanStep>, i: nat)
    requires i < |steps|
  {
    && Eligible(steps[i]) && Dependent(steps[i]) && !Bound(steps[i])
    && steps[i].proposalId.Some? && MadeFor(g, steps, |steps|, steps[i].proposalId.value)
  }

  /** After the binding handler ran, step `i` has less left to do exactly when it gained. */
  lemma StepGainsIff(desk: Desk, g: Gov, steps: seq<PlanStep>, count: nat, at: Option<Text>, i: nat)
    requires i < |steps|
    ensures var s := AllBound(g.proposals, steps, count, Bindings(desk, g, steps), at).1[i];
            && (Work(s) < Work(steps[i]) <==> Gains(g, steps, i))
            && ((steps[i].proposalId.Some? ==> Eligible(steps[i])) ==> Work(s) <= Work(steps[i]))
  {
    var bindings := Bindings(desk, g, steps);
    BindingsNonEmpty(desk, g, steps);
    AllBoundStep(g.proposals, steps, count, bindings, at, i);
    if steps[i].proposalId.Some? {
      var id := steps[i].proposalId.value;
      MadeForIff(desk, g, steps, |steps|, id);
      assert steps[..|steps|] == steps;
      if MadeFor(g, steps, |steps|, id) {
        var j :| 0 <= j < |steps| && CanMake(g, steps, j) && steps[j].proposalId == Some(id);
        assert Applies(g.proposals, bindings, id);
      }
    }
  }

  /** The work left of an approved plan drops by an announced binding if and only if an
      eligible step that waited for a result gets one.  Steps with a proposal are eligible
      in every plan the handlers queued. */
  lemma AnnouncedBindingGainsIff(desk: Desk, g: Gov, k: nat, now: Text)
    requires k < |g.plans| && g.plans[k].id != "" && FindPlan(g.plans, g.plans[k].id) == k
             && g.plans[k].review == Some(Approved)
    requires NextAction(g.plans[k], g.proposals).CanBind?
    requires forall i ::
               0 <= i < |g.plans[k].steps| && g.plans[k].steps[i].proposalId.Some? ==> Eligible(g.plans[k].steps[i])
    ensures var g' := AdvancePlan(desk, g, g.plans[k].id, now).0;
            var steps := g.plans[k].steps;
            && k < |g'.plans|
            && (Measure(g'.plans[k].steps) < Measure(steps) <==> exists i :: 0 <= i < |steps| && Gains(g, steps, i))
  {
    var plan := g.plans[k];
    var bindings := Bindings(desk, g, plan.steps);
    var g' := AdvancePlan(desk, g, plan.id, now).0;
    var after := AllBound(g.proposals, plan.steps, plan.boundCount, bindings, Some(now)).1;
    BoundSteps(desk, g, k, now);
    forall i | 0 <= i < |plan.steps|
      ensures Work(after[i]) <= Work(plan.steps[i])
              && (Work(after[i]) < Work(plan.steps[i]) <==> Gains(g, plan.steps, i))
    {
      StepGainsIff(desk, g, plan.steps, plan.boundCount, Some(now), i);
    }
    MeasureDropsIff(plan.steps, after);
  }

  lemma BoundSteps(desk: Desk, g: Gov, k: nat, now: Text)
    requires k < |g.plans| && g.plans[k].id != "" && FindPlan(g.plans, g.plans[k].id) == k
             && g.plans[k].review == Some(Approved)
    requires NextAction(g.plans[k], g.proposals).CanBind?
    ensures var g' := AdvancePlan(desk, g, g.plans[k].id, now).0;
            var plan := g.plans[k];
            && k < |g'.plans|
            && g'.plans[k].steps
               == AllBound(g.proposals, plan.steps, plan.boundCount, Bindings(desk, g, plan.steps), Some(now)).1
  {
    var plan := g.plans[k];
    var bindings := Bindings(desk, g, plan.steps);
    var e := BLANK_EVENT.(typ := "tool_plan_result_binding", planId := plan.id, bindings := bindings, at := Some(now));
    BindingReduces(desk.env, g, e);
    AdvanceBinds(desk, g, k, now);
  }

  lemma MeasureDropsIff(a: seq<PlanStep>, b: seq<PlanStep>)
    requires |a| == |b| && forall i :: 0 <= i < |a| ==> Work(b[i]) <= Work(a[i])
    ensures Measure(b) < Measure(a) <==> exists i :: 0 <= i < |a| && Work(b[i]) < Work(a[i])
  {
    if i :| 0 <= i < |a| && Work(b[i]) < Work(a[i]) {
      MeasureDrops(a, b, i);
    } else {
      MeasureMonotone(b, a);
    }
  }

  // ------------------------------------------------ handlers and their events

  lemma EmitIsLogged(desk: Desk, g: Gov, e: Event)
    ensures Emit(desk, g, e) == After(desk.env, g, [e])
  {
    assert [e][..0] == [];
  }

  lemma {:induction false} QueueingIsLogged(desk: Desk, g: Gov, plan: Plan, steps: seq<PlanStep>, prefix: Text)
    returns (events: seq<Event>)
    ensures QueueProposals(desk, g, plan, steps, prefix).0 == After(desk.env, g, events)
    decreases |steps|
  {
    events := [];
    if steps != [] {
      var front, s := steps[..|steps| - 1], steps[|steps| - 1];
      events := QueueingIsLogged(desk, g, plan, front, prefix);
      var (g1, queued) := QueueProposals(desk, g, plan, front, prefix);
      if queued.Ok? && QueueCandidate(s) {
        var event := ProposalEvent(desk.registry, s.toolId.value, s.arguments, StepReason(plan, s, prefix),
                                   g1.agentMode);
        if event.Ok? {
          EmitIsLogged(desk, g1, event.value);
          AfterConcat(desk.env, g, events, [event.value]);
          events := events + [event.value];
        }
      }
    }
  }

  lemma {:induction false} ExecutingIsLogged(desk: Desk, g: Gov, plan: Plan, steps: seq<PlanStep>, reason: Text,
                                             now: Text) returns (events: seq<Event>)
    ensures ExecuteProposals(desk, g, plan, steps, reason, now).0 == After(desk.env, g, events)
    decreases |steps|
  {
    events := [];
    if steps != [] {
      var front, s := steps[..|steps| - 1], steps[|steps| - 1];
      events := ExecutingIsLogged(desk, g, plan, front, reason, now);
      var (g1, executed) := ExecuteProposals(desk, g, plan, front, reason, now);
      if executed.Ok? && ExecutionCandidate(s, g1.proposals) {
        var p := g1.proposals[FindProposal(g1.proposals, s.proposalId.value)];
        var event := ExecutionEvent(desk, g1, p, if reason == "" then "plan " + plan.id + " " + s.id else reason, now);
        if event.Ok? {
          EmitIsLogged(desk, g1, event.value);
          AfterConcat(desk.env, g, events, [event.value]);
          events := events + [event.value];
        }
      }
    }
  }

  lemma OneMore(desk: Desk, g: Gov, events: seq<Event>, e: Event)
    ensures Emit(desk, After(desk.env, g, events), e) == After(desk.env, g, events + [e])
  {
    EmitIsLogged(desk, After(desk.env, g, events), e);
    AfterConcat(desk.env, g, events, [e]);
  }

  /** Whatever a move on a plan does, it does by logging events; so what holds after every
      log holds after every run of moves. */
  lemma MoveIsLogged(desk: Desk, g: Gov, planId: Text, move: Move) returns (events: seq<Event>)
    ensures DoMove(desk, g, planId, move) == After(desk.env, g, events)
  {
    match move {
      case Guided(now) => events := AdvanceIsLogged(desk, g, planId, now);
      case Queued(prefix, now) => events := QueueIsLogged(desk, g, planId, prefix, now);
      case Executed(reason, now) => events := ExecuteIsLogged(desk, g, planId, reason, now);
      case BoundNow(now) => events := BindIsLogged(desk, g, planId, now);
      case Logged(e) => EmitIsLogged(desk, g, e); events := [e];
    }
  }

  lemma QueueIsLogged(desk: Desk, g: Gov, planId: Text, prefix: Text, now: Text) returns (events: seq<Event>)
    ensures QueueSteps(desk, g, planId, prefix, now).0 == After(desk.env, g, events)
  {
    events := [];
    var i := FindPlan(g.plans, planId);
    if i < |g.plans| && g.plans[i].review == Some(Approved) {
      events := QueueingIsLogged(desk, g, g.plans[i], g.plans[i].steps, prefix);
      var queued := QueueProposals(desk, g, g.plans[i], g.plans[i].steps, prefix).1;
      if queued.Ok? && queued.value != [] {
        var e := BLANK_EVENT.(typ := "tool_plan_step_queue", planId := planId, queued := queued.value, at := Some(now));
        OneMore(desk, g, events, e);
        events := events + [e];
      }
    }
  }

  lemma ExecuteIsLogged(desk: Desk, g: Gov, planId: Text, reason: Text, now: Text) returns (events: seq<Event>)
    ensures RequestExecution(desk, g, planId, reason, now).0 == After(desk.env, g, events)
  {
    events := [];
    var i := FindPlan(g.plans, planId);
    if i < |g.plans| && g.plans[i].review == Some(Approved) {
      events := ExecutingIsLogged(desk, g, g.plans[i], g.plans[i].steps, reason, now);
      var executed := ExecuteProposals(desk, g, g.plans[i], g.plans[i].steps, reason, now).1;
      if executed.Ok? && executed.value != [] {
        var e := BLANK_EVENT.(typ := "tool_plan_execution_request", planId := planId, executed := executed.value,
                              at := Some(now));
        OneMore(desk, g, events, e);
        events := events + [e];
      }
    }
  }

  lemma BindIsLogged(desk: Desk, g: Gov, planId: Text, now: Text) returns (events: seq<Event>)
    ensures BindResults(desk, g, planId, now).0 == After(desk.env, g, events)
  {
    events := [];
    var i := FindPlan(g.plans, planId);
    if i < |g.plans| && g.plans[i].review == Some(Approved) && Bindings(desk, g, g.plans[i].steps) != [] {
      var e := BLANK_EVENT.(typ := "tool_plan_result_binding", planId := planId,
                            bindings := Bindings(desk, g, g.plans[i].steps), at := Some(now));
      EmitIsLogged(desk, g, e);
      events := [e];
    }
  }

  lemma AdvanceIsLogged(desk: Desk, g: Gov, planId: Text, now: Text) returns (events: seq<Event>)
    ensures AdvancePlan(desk, g, planId, now).0 == After(desk.env, g, events)
  {
    events := [];
    var i := FindPlan(g.plans, planId);
    if i < |g.plans| {
      match NextAction(g.plans[i], g.proposals) {
        case CanQueue => events := QueueIsLogged(desk, g, planId, "guided advance queued step proposals; ", now);
        case CanExecute(_) =>
          events := ExecuteIsLogged(desk, g, planId, "guided advance requested approved step execution", now);
        case CanBind(_) => events := BindIsLogged(desk, g, planId, now);
        case _ =>
      }
    }
  }
}
