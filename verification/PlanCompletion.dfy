/** When the runner calls a plan complete, and what else may happen to a plan meanwhile. */
module PlanCompletion {
  import opened Collections
  import opened Governance
  import opened ToolArguments
  import opened PlanRunner
  import opened PlanInvariant
  import opened PlanBinding
  import opened PlanAdvance

  /** The step's proposal was approved and the step has its receipt. */
  ghost predicate StepDone(queue: seq<Proposal>, s: PlanStep) {
    && s.proposalId.Some? && s.receiptId.Some?
    && var i := FindProposal(queue, s.proposalId.value);
       i < |queue| && queue[i].review == Approved
  }

  ghost predicate AllDone(queue: seq<Proposal>, steps: seq<PlanStep>) {
    forall i :: 0 <= i < |steps| && Eligible(steps[i]) ==> StepDone(queue, steps[i])
  }

  /** A step that waits for a result, with its proposal still pending. */
  predicate Stuck(s: PlanStep, queue: seq<Proposal>) {
    var p := Lookup(queue, s.proposalId);
    p.Some? && p.value.review == Pending && UnboundDependent(s, p.value)
  }

  ghost predicate InOrder(steps: seq<PlanStep>) {
    forall a, b :: 0 <= a < b < |steps| ==> Before(steps[a].id, steps[b].id)
  }

  lemma {:induction false} EligibleInOrder(steps: seq<PlanStep>)
    requires InOrder(steps)
    ensures InOrder(EligibleSteps(steps))
  {
    if steps != [] {
      var n := |steps| - 1;
      EligibleInOrder(steps[..n]);
      var rest := EligibleSteps(steps[..n]);
      forall a | 0 <= a < |rest| ensures Before(rest[a].id, steps[n].id) {
        EligibleIs(steps[..n], rest[a]);
      }
    }
  }

  lemma ShapeInOrder(registry: Registry, steps: seq<PlanStep>)
    requires ShapeOk(registry, steps)
    ensures InOrder(steps)
  {
    forall a, b | 0 <= a < b < |steps| ensures Before(steps[a].id, steps[b].id) { assert Increasing(steps, a, b); }
  }

  /** Where a queued step of a plan called complete stands: done, or stuck. */
  lemma DoneOrStuck(desk: Desk, g: Gov, k: nat, s: PlanStep)
    requires PlanInv(desk, g, k) && NextAction(g.plans[k], g.proposals).Complete?
    requires s in EligibleSteps(g.plans[k].steps)
    ensures StepDone(g.proposals, s) || (Stuck(s, g.proposals) && !HasPrior(s, EligibleSteps(g.plans[k].steps)))
    ensures StepDone(g.proposals, s) ==> HasRun(s) && !Stuck(s, g.proposals)
  {
    var steps := g.plans[k].steps;
    var eligible := EligibleSteps(steps);
    var i := EligiblePosition(steps, s);
    assert StepOk(desk.registry, g, steps, i);
    var x :| 0 <= x < |eligible| && eligible[x] == s;
    assert Truthy(eligible[x].proposalId);
    LookupIsFind(g.proposals, s.proposalId.value);
    SelectNone(IsBindable, eligible, g.proposals, eligible, s);
    SelectNone(IsAwaiting, eligible, g.proposals, eligible, s);
    SelectNone(IsExecutable, eligible, g.proposals, eligible, s);
    SelectNone(IsDenied, eligible, g.proposals, eligible, s);
  }

  /** A plan called complete is complete, except that its first eligible step may be one
      that waits for an earlier result: no such result will ever come. */
  lemma CompleteMeansDoneIff(desk: Desk, g: Gov, k: nat)
    requires PlanInv(desk, g, k) && NextAction(g.plans[k], g.proposals).Complete?
    ensures var eligible := EligibleSteps(g.plans[k].steps);
            AllDone(g.proposals, g.plans[k].steps) <==> (eligible == [] || !Stuck(eligible[0], g.proposals))
  {
    var steps := g.plans[k].steps;
    var eligible := EligibleSteps(steps);
    if eligible != [] {
      var i := EligiblePosition(steps, eligible[0]);
      DoneOrStuck(desk, g, k, eligible[0]);
    }
    if eligible == [] || !Stuck(eligible[0], g.proposals) {
      ShapeInOrder(desk.registry, steps);
      EligibleInOrder(steps);
      forall j | 0 <= j < |steps| && Eligible(steps[j]) ensures StepDone(g.proposals, steps[j]) {
        EligibleIs(steps, steps[j]);
        DoneOrStuck(desk, g, k, steps[j]);
        var x :| 0 <= x < |eligible| && eligible[x] == steps[j];
        assert x > 0 ==> Before(eligible[0].id, eligible[x].id);
      }
    }
  }

  /** In particular, when every step that waits for a result has an eligible step before
      it, nothing is skipped: complete means every proposal approved and executed. */
  lemma NoPrematureCompletion(desk: Desk, g: Gov, k: nat)
    requires PlanInv(desk, g, k) && NextAction(g.plans[k], g.proposals).Complete?
    requires forall i ::
               0 <= i < |g.plans[k].steps| && Eligible(g.plans[k].steps[i]) && Dependent(g.plans[k].steps[i]) ==>
               exists j :: 0 <= j < i && Eligible(g.plans[k].steps[j])
    ensures AllDone(g.proposals, g.plans[k].steps)
  {
    var steps := g.plans[k].steps;
    var eligible := EligibleSteps(steps);
    if eligible != [] && Stuck(eligible[0], g.proposals) {
      var i := EligiblePosition(steps, eligible[0]);
      assert StepOk(desk.registry, g, steps, i);
      LookupIsFind(g.proposals, steps[i].proposalId.value);
      var j :| 0 <= j < i && Eligible(steps[j]);
      ShapeInOrder(desk.registry, steps);
      FirstIsFirst(steps, j);
      BeforeAntisymmetric(steps[j].id, steps[i].id);
      NotBeforeItself(steps[i].id);
    }
    CompleteMeansDoneIff(desk, g, k);
  }

  lemma FirstIsFirst(steps: seq<PlanStep>, j: nat)
    requires InOrder(steps) && j < |steps| && Eligible(steps[j])
    ensures var eligible := EligibleSteps(steps);
            eligible != [] && (eligible[0] == steps[j] || Before(eligible[0].id, steps[j].id))
  {
    var eligible := EligibleSteps(steps);
    EligibleIs(steps, steps[j]);
    EligibleInOrder(steps);
    var x :| 0 <= x < |eligible| && eligible[x] == steps[j];
  }

  /** The step is done, or it waits for a result and nothing before it has run. */
  ghost predicate Settled(queue: seq<Proposal>, steps: seq<PlanStep>, s: PlanStep) {
    StepDone(queue, s) || (Stuck(s, queue) && !HasPrior(s, EligibleSteps(steps)))
  }

  /** Exactly when the runner calls a plan complete: every eligible step is done, or is one
      that waits for a result behind steps none of which has run. */
  lemma CompleteIff(desk: Desk, g: Gov, k: nat)
    requires PlanInv(desk, g, k)
    ensures var steps := g.plans[k].steps;
            NextAction(g.plans[k], g.proposals).Complete?
            <==> forall i :: 0 <= i < |steps| && Eligible(steps[i]) ==> Settled(g.proposals, steps, steps[i])
  {
    var steps := g.plans[k].steps;
    if NextAction(g.plans[k], g.proposals).Complete? {
      forall i | 0 <= i < |steps| && Eligible(steps[i]) ensures Settled(g.proposals, steps, steps[i]) {
        EligibleIs(steps, steps[i]);
        DoneOrStuck(desk, g, k, steps[i]);
      }
    } else if forall i :: 0 <= i < |steps| && Eligible(steps[i]) ==> Settled(g.proposals, steps, steps[i]) {
      SettledMeansComplete(desk, g, k);
    }
  }

  lemma SettledMeansComplete(desk: Desk, g: Gov, k: nat)
    requires PlanInv(desk, g, k)
    requires var steps := g.plans[k].steps;
             forall i :: 0 <= i < |steps| && Eligible(steps[i]) ==> Settled(g.proposals, steps, steps[i])
    ensures NextAction(g.plans[k], g.proposals).Complete?
  {
    var steps := g.plans[k].steps;
    var eligible := EligibleSteps(steps);
    forall x | 0 <= x < |eligible| ensures Truthy(eligible[x].proposalId) {
      var i := EligiblePosition(steps, eligible[x]);
      assert StepOk(desk.registry, g, steps, i) && Settled(g.proposals, steps, steps[i]);
      NoneNotFound(g.proposals);
    }
    NoneSelected(desk, g, k, IsBindable);
    NoneSelected(desk, g, k, IsAwaiting);
    NoneSelected(desk, g, k, IsExecutable);
    NoneSelected(desk, g, k, IsDenied);
  }

  lemma NoneSelected(desk: Desk, g: Gov, k: nat, test: Test)
    requires PlanInv(desk, g, k)
    requires var steps := g.plans[k].steps;
             forall i :: 0 <= i < |steps| && Eligible(steps[i]) ==> Settled(g.proposals, steps, steps[i])
    ensures var eligible := EligibleSteps(g.plans[k].steps); Select(test, eligible, g.proposals, eligible) == []
  {
    var steps := g.plans[k].steps;
    var eligible := EligibleSteps(steps);
    if Select(test, eligible, g.proposals, eligible) != [] {
      var s := SelectGives(test, eligible, g.proposals, eligible);
      var i := EligiblePosition(steps, s);
      assert StepOk(desk.registry, g, steps, i) && Settled(g.proposals, steps, steps[i]);
      if s.proposalId.Some? { LookupIsFind(g.proposals, s.proposalId.value); }
    }
  }

  /** In particular a plan whose steps are all done is called complete. */
  lemma DoneMeansComplete(desk: Desk, g: Gov, k: nat)
    requires PlanInv(desk, g, k) && AllDone(g.proposals, g.plans[k].steps)
    ensures NextAction(g.plans[k], g.proposals).Complete?
  {
    CompleteIff(desk, g, k);
  }

  /** A plan whose only step waits for a result that nothing produces is called complete
      while its proposal is still pending. */
  lemma PrematureCompletion(plan: Plan, queue: seq<Proposal>, s: PlanStep)
    requires plan.review == Some(Approved) && plan.steps == [s] && Eligible(s) && Truthy(s.proposalId)
    requires Dependent(s) && Stuck(s, queue)
    ensures NextAction(plan, queue) == Complete
  {
    var eligible := [s];
    assert eligible[..0] == [] && EligibleSteps(eligible[..0]) == [];
    assert EligibleSteps(plan.steps) == eligible;
    NotBeforeItself(s.id);
    SelectSingle(IsBindable, s, queue);
    SelectSingle(IsAwaiting, s, queue);
    SelectSingle(IsExecutable, s, queue);
    SelectSingle(IsDenied, s, queue);
  }

  lemma SelectSingle(test: Test, s: PlanStep, queue: seq<Proposal>)
    ensures !Passes(test, s, queue, [s]) ==> Select(test, [s], queue, [s]) == []
  {
    assert [s][..0] == [];
  }

  lemma {:induction false} NoSourceNoBindings(desk: Desk, g: Gov, steps: seq<PlanStep>)
    requires forall i :: 0 <= i < |steps| ==> !IsSource(g.receipts, steps[i])
    ensures Source(g.receipts, steps).None? && Bindings(desk, g, steps) == []
  {
    if steps != [] { NoSourceNoBindings(desk, g, steps[..|steps| - 1]); }
  }

  /** After a step whose receipt cannot be bound the runner announces a binding and the
      handler makes none. */
  lemma AdvanceMayStall(desk: Desk, g: Gov, k: nat, a: PlanStep, s: PlanStep, now: Text)
    requires k < |g.plans| && FindPlan(g.plans, g.plans[k].id) == k && g.plans[k].review == Some(Approved)
    requires g.plans[k].steps == [a, s] && Eligible(a) && Eligible(s) && Truthy(a.proposalId) && Truthy(s.proposalId)
    requires Truthy(a.receiptId) && Before(a.id, s.id) && Stuck(s, g.proposals)
    requires !IsSource(g.receipts, a) && !IsSource(g.receipts, s)
    ensures NextAction(g.plans[k], g.proposals).CanBind?
    ensures AdvancePlan(desk, g, g.plans[k].id, now).0 == g
  {
    var steps := g.plans[k].steps;
    NoSourceNoBindings(desk, g, steps);
    assert EligibleSteps(steps) == [a, s] by {
      assert steps[..1] == [a] && [a][..0] == [] && EligibleSteps([a]) == [a];
    }
    SecondSelected(IsBindable, a, s, g.proposals);
  }

  lemma SecondSelected(test: Test, a: PlanStep, s: PlanStep, queue: seq<Proposal>)
    requires Passes(test, s, queue, [a, s])
    ensures Select(test, [a, s], queue, [a, s]) != []
  {
  }
}
