/** The main results about guided advance. */
module PlanAdvance {
  import opened Governance
  import opened GovernanceProofs
  import opened ToolArguments
  import opened PlanRunner
  import opened PlanInvariant
  import opened PlanProgress
  import opened PlanExecuting
  import opened PlanBinding

  // ---------------------------------------------------- what an action promises

  lemma {:induction false} SelectGives(test: Test, steps: seq<PlanStep>, queue: seq<Proposal>, eligible: seq<PlanStep>)
    returns (s: PlanStep)
    requires Select(test, steps, queue, eligible) != []
    ensures s in steps && Passes(test, s, queue, eligible)
    decreases |steps|
  {
    var last := steps[|steps| - 1];
    if Passes(test, last, queue, eligible) {
      s := last;
    } else {
      s := SelectGives(test, steps[..|steps| - 1], queue, eligible);
    }
  }

  lemma {:induction false} SelectNone(test: Test, steps: seq<PlanStep>, queue: seq<Proposal>, eligible: seq<PlanStep>,
                                      s: PlanStep)
    requires Select(test, steps, queue, eligible) == [] && s in steps
    ensures !Passes(test, s, queue, eligible)
    decreases |steps|
  {
    var n := |steps| - 1;
    if s != steps[n] { SelectNone(test, steps[..n], queue, eligible, s); }
  }

  lemma EligiblePosition(steps: seq<PlanStep>, s: PlanStep) returns (i: nat)
    requires s in EligibleSteps(steps)
    ensures i < |steps| && steps[i] == s && Eligible(s)
  {
    EligibleIs(steps, s);
    i :| 0 <= i < |steps| && steps[i] == s;
  }

  lemma ExecutableIsCandidate(registry: Registry, g: Gov, s: PlanStep)
    requires GovOk(g) && QueuedOk(registry, g.proposals, s) && Executable(s, g.proposals)
    ensures ExecutionCandidate(s, g.proposals)
  {
    if s.proposalId.Some? {
      LookupIsFind(g.proposals, s.proposalId.value);
    } else {
      NoneNotFound(g.proposals);
    }
  }

  predicate CanAdvance(action: PlanAction) {
    action.CanQueue? || action.CanBind? || action.CanExecute?
  }

  lemma CanQueueGives(g: Gov, k: nat) returns (i: nat)
    requires k < |g.plans| && NextAction(g.plans[k], g.proposals).CanQueue?
    ensures i < |g.plans[k].steps| && QueueCandidate(g.plans[k].steps[i])
  {
    var eligible := EligibleSteps(g.plans[k].steps);
    var x :| 0 <= x < |eligible| && !Truthy(eligible[x].proposalId);
    i := EligiblePosition(g.plans[k].steps, eligible[x]);
  }

  lemma CanBindGives(g: Gov, k: nat) returns (i: nat)
    requires k < |g.plans| && NextAction(g.plans[k], g.proposals).CanBind?
    ensures var steps := g.plans[k].steps;
            i < |steps| && Eligible(steps[i]) && Bindable(steps[i], g.proposals, EligibleSteps(steps))
  {
    var eligible := EligibleSteps(g.plans[k].steps);
    var s := SelectGives(IsBindable, eligible, g.proposals, eligible);
    i := EligiblePosition(g.plans[k].steps, s);
  }

  lemma CanExecuteGives(desk: Desk, g: Gov, k: nat) returns (i: nat)
    requires PlanInv(desk, g, k) && NextAction(g.plans[k], g.proposals).CanExecute?
    ensures i < |g.plans[k].steps| && ExecutionCandidate(g.plans[k].steps[i], g.proposals)
  {
    var eligible := EligibleSteps(g.plans[k].steps);
    var s := SelectGives(IsExecutable, eligible, g.proposals, eligible);
    i := EligiblePosition(g.plans[k].steps, s);
    assert StepOk(desk.registry, g, g.plans[k].steps, i);
    ExecutableIsCandidate(desk.registry, g, s);
  }

  lemma QueueingAdvances(desk: Desk, g: Gov, k: nat, now: Text)
    requires PlanInv(desk, g, k) && NextAction(g.plans[k], g.proposals).CanQueue?
    ensures var (g', out) := AdvancePlan(desk, g, g.plans[k].id, now);
            out == Advanced(NextAction(g.plans[k], g.proposals), Done) && Forward(desk, g, g', k)
  {
    var i := CanQueueGives(g, k);
    QueueAdvances(desk, g, k, i, "guided advance queued step proposals; ", now);
  }

  lemma ResultsAdvance(desk: Desk, g: Gov, k: nat, now: Text)
    requires GuidedInv(desk, g, k) && NextAction(g.plans[k], g.proposals).CanBind?
    ensures var (g', out) := AdvancePlan(desk, g, g.plans[k].id, now);
            out == Advanced(NextAction(g.plans[k], g.proposals), Done) && Forward(desk, g, g', k)
  {
    var i := CanBindGives(g, k);
    BindingAdvances(desk, g, k, i, now);
    AdvanceBinds(desk, g, k, now);
  }

  lemma AdvanceBinds(desk: Desk, g: Gov, k: nat, now: Text)
    requires k < |g.plans| && FindPlan(g.plans, g.plans[k].id) == k && NextAction(g.plans[k], g.proposals).CanBind?
    ensures var (g', answer) := BindResults(desk, g, g.plans[k].id, now);
            AdvancePlan(desk, g, g.plans[k].id, now) == (g', Advanced(NextAction(g.plans[k], g.proposals), answer))
  {
  }

  lemma RequestsAdvance(desk: Desk, g: Gov, k: nat, now: Text)
    requires PlanInv(desk, g, k) && NonFailing(desk) && NextAction(g.plans[k], g.proposals).CanExecute?
    ensures var (g', out) := AdvancePlan(desk, g, g.plans[k].id, now);
            out == Advanced(NextAction(g.plans[k], g.proposals), Done) && Forward(desk, g, g', k)
  {
    var i := CanExecuteGives(desk, g, k);
    ExecutionAdvances(desk, g, k, i, "guided advance requested approved step execution", now);
    RequestIs(desk, g, k, now);
  }

  lemma RequestIs(desk: Desk, g: Gov, k: nat, now: Text)
    requires k < |g.plans| && FindPlan(g.plans, g.plans[k].id) == k && NextAction(g.plans[k], g.proposals).CanExecute?
    ensures var (g', answer) := RequestExecution(desk, g, g.plans[k].id,
                                                 "guided advance requested approved step execution", now);
            AdvancePlan(desk, g, g.plans[k].id, now) == (g', Advanced(NextAction(g.plans[k], g.proposals), answer))
  {
  }

  /** Whenever the runner says a step can be taken without a human, taking it succeeds,
      leaves strictly less to do, and approves or denies nothing; otherwise nothing changes. */
  lemma AdvanceProgresses(desk: Desk, g: Gov, k: nat, now: Text)
    requires GuidedInv(desk, g, k) && NonFailing(desk)
    ensures var action := NextAction(g.plans[k], g.proposals);
            var (g', out) := AdvancePlan(desk, g, g.plans[k].id, now);
            if CanAdvance(action)
              then out == Advanced(action, Done) && Forward(desk, g, g', k) && GuidedInv(desk, g', k)
            else out == Waiting(action) && g' == g
  {
    var action := NextAction(g.plans[k], g.proposals);
    if action.CanQueue? {
      QueueingAdvances(desk, g, k, now);
    } else if action.CanBind? {
      ResultsAdvance(desk, g, k, now);
    } else if action.CanExecute? {
      RequestsAdvance(desk, g, k, now);
    }
    if CanAdvance(action) {
      SourcesKept(desk.registry, g.plans[k].steps, AdvancePlan(desk, g, g.plans[k].id, now).0.plans[k].steps);
    }
  }

  /** The state after a number of advances in a row. */
  function Drive(desk: Desk, g: Gov, planId: Text, times: seq<Text>): Gov
    decreases |times|
  {
    if times == [] then g else Drive(desk, AdvancePlan(desk, g, planId, times[0]).0, planId, times[1..])
  }

  /** At most three advances per step bring an approved plan to a point where a human is
      awaited, a step was denied, or nothing is left; nothing is decided on the way. */
  lemma {:induction false} AdvanceReachesGate(desk: Desk, g: Gov, k: nat, times: seq<Text>)
    requires GuidedInv(desk, g, k) && NonFailing(desk)
    requires |times| >= Measure(g.plans[k].steps)
    ensures var end := Drive(desk, g, g.plans[k].id, times);
            && GuidedInv(desk, end, k) && NoDecision(g, end)
            && !CanAdvance(NextAction(end.plans[k], end.proposals))
    decreases |times|
  {
    if !CanAdvance(NextAction(g.plans[k], g.proposals)) {
      WaitingStays(desk, g, k, times);
      SameNoDecision(g);
    } else if times != [] {
      AdvanceProgresses(desk, g, k, times[0]);
      var g' := AdvancePlan(desk, g, g.plans[k].id, times[0]).0;
      AdvanceReachesGate(desk, g', k, times[1..]);
      NoDecisionTrans(g, g', Drive(desk, g, g.plans[k].id, times));
    } else {
      AdvanceProgresses(desk, g, k, "");
    }
  }

  lemma {:induction false} WaitingStays(desk: Desk, g: Gov, k: nat, times: seq<Text>)
    requires GuidedInv(desk, g, k) && NonFailing(desk) && !CanAdvance(NextAction(g.plans[k], g.proposals))
    ensures Drive(desk, g, g.plans[k].id, times) == g
    decreases |times|
  {
    if times != [] {
      AdvanceProgresses(desk, g, k, times[0]);
      WaitingStays(desk, g, k, times[1..]);
    }
  }

  lemma AdvanceReachesGateIn3(desk: Desk, g: Gov, k: nat, times: seq<Text>)
    requires GuidedInv(desk, g, k) && NonFailing(desk) && |times| == 3 * |g.plans[k].steps|
    ensures var end := Drive(desk, g, g.plans[k].id, times);
            GuidedInv(desk, end, k) && NoDecision(g, end) && !CanAdvance(NextAction(end.plans[k], end.proposals))
  {
    MeasureBound(g.plans[k].steps);
    AdvanceReachesGate(desk, g, k, times);
  }

  lemma SameNoDecision(g: Gov)
    ensures NoDecision(g, g)
  {
    forall i ensures SameReview(g.proposals, g.proposals, i) {}
  }

  lemma NoDecisionTrans(a: Gov, b: Gov, c: Gov)
    requires NoDecision(a, b) && NoDecision(b, c)
    ensures NoDecision(a, c)
  {
    forall i ensures SameReview(a.proposals, c.proposals, i) {
      assert SameReview(a.proposals, b.proposals, i) && SameReview(b.proposals, c.proposals, i);
    }
  }
}
