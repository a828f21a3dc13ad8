/** Guided advance makes progress and decides nothing. */
module PlanProgress {
  import opened Collections
  import opened Governance
  import opened GovernanceProofs
  import opened ToolArguments
  import opened PlanRunner
  import opened PlanInvariant
  import opened PlanQueueing

  // ------------------------------------------------------------ no decisions

  ghost predicate SameReview(q: seq<Proposal>, q': seq<Proposal>, i: int) {
    && (0 <= i < |q| ==> i < |q'| && q'[i].review == q[i].review)
    && (|q| <= i < |q'| ==> q'[i].review == Pending)
  }

  /** No proposal and no plan was approved or denied. */
  ghost predicate NoDecision(g: Gov, g': Gov) {
    && |g.proposals| <= |g'.proposals|
    && (forall i {:trigger SameReview(g.proposals, g'.proposals, i)} :: SameReview(g.proposals, g'.proposals, i))
    && |g'.plans| == |g.plans|
    && (forall i :: 0 <= i < |g.plans| ==> g'.plans[i].review == g.plans[i].review && g'.plans[i].id == g.plans[i].id)
  }

  /** The outcome of one advance: the invariant again, less to do, nothing decided. */
  ghost predicate Forward(desk: Desk, g: Gov, g': Gov, k: nat)
    requires k < |g.plans|
  {
    && PlanInv(desk, g', k) && g'.plans[k].id == g.plans[k].id && |g'.plans[k].steps| == |g.plans[k].steps|
    && StepsProgress(g.plans[k].steps, g'.plans[k].steps)
    && Measure(g'.plans[k].steps) < Measure(g.plans[k].steps)
    && NoDecision(g, g')
  }

  /** No result was bound to any step. */
  ghost predicate SameBound(a: seq<PlanStep>, b: seq<PlanStep>) {
    |b| == |a| && forall i :: 0 <= i < |a| ==> b[i].boundArguments == a[i].boundArguments
  }

  lemma {:induction false} FindPlanSame(a: seq<Plan>, b: seq<Plan>, id: Text)
    requires |a| == |b| && forall i :: 0 <= i < |a| ==> a[i].id == b[i].id
    ensures FindPlan(b, id) == FindPlan(a, id)
  {
    if a != [] { FindPlanSame(a[1..], b[1..], id); }
  }

  /** Plan `k` was replaced by one with the same id and review. */
  ghost predicate Replaced(g: Gov, g': Gov, k: nat, plan: Plan) {
    k < |g.plans| && g'.plans == g.plans[k := plan] && plan.id == g.plans[k].id && plan.review == g.plans[k].review
  }

  lemma PlanInvAgain(desk: Desk, g: Gov, g': Gov, k: nat, plan: Plan)
    requires PlanInv(desk, g, k) && Replaced(g, g', k, plan) && GovOk(g') && ReceiptsOk(g'.receipts)
    requires StepsProgress(g.plans[k].steps, plan.steps) && StepsOk(desk.registry, g', plan.steps)
    ensures PlanInv(desk, g', k)
  {
    FindPlanSame(g.plans, g'.plans, plan.id);
    ShapeKept(desk.registry, g.plans[k].steps, plan.steps);
  }

  // ---------------------------------------------------------------- queueing

  lemma QueuedOkStable(registry: Registry, a: seq<Proposal>, b: seq<Proposal>, s: PlanStep)
    requires QueuedOk(registry, a, s) && a <= b
    ensures QueuedOk(registry, b, s)
  {
    if s.proposalId.Some? { FindProposalStable(a, b, s.proposalId.value); }
  }

  lemma ExecutedOkStable(registry: Registry, a: seq<Proposal>, b: seq<Proposal>, receipts: seq<Receipt>, s: PlanStep)
    requires ExecutedOk(registry, a, receipts, s) && a <= b
    ensures ExecutedOk(registry, b, receipts, s)
  {
    if s.receiptId.Some? { FindProposalStable(a, b, s.proposalId.value); }
  }

  lemma StepQueuedOk(registry: Registry, g: Gov, g': Gov, s: PlanStep, s': PlanStep)
    requires QueuedOk(registry, g.proposals, s) && ExecutedOk(registry, g.proposals, g.receipts, s)
    requires g.proposals <= g'.proposals && g'.receipts == g.receipts
    requires if QueueCandidate(s)
             then QueuedFor(registry, g'.proposals, s'.proposalId, s)
               && s' == s.(proposalId := s'.proposalId, status := "proposal_queued")
             else s' == s
    ensures QueuedOk(registry, g'.proposals, s') && ExecutedOk(registry, g'.proposals, g'.receipts, s')
            && Progresses(s, s')
    ensures !QueueCandidate(s') && (QueueCandidate(s) ==> Work(s') < Work(s))
  {
    if !QueueCandidate(s) {
      QueuedOkStable(registry, g.proposals, g'.proposals, s);
      ExecutedOkStable(registry, g.proposals, g'.proposals, g.receipts, s);
    }
  }

  lemma AllStepsQueued(registry: Registry, g: Gov, g': Gov, steps: seq<PlanStep>, ids: seq<Text>,
                       queued: seq<QueuedStep>)
    requires ShapeOk(registry, steps) && StepsOk(registry, g, steps)
             && Entries(registry, g'.proposals, steps, |steps|, queued)
    requires g.proposals <= g'.proposals && g'.receipts == g.receipts
    ensures var steps' := AllQueued(steps, ids, queued).0;
            && StepsOk(registry, g', steps') && StepsProgress(steps, steps') && SameBound(steps, steps')
            && (forall i :: 0 <= i < |steps| ==> !QueueCandidate(steps'[i]))
            && forall i :: 0 <= i < |steps| && QueueCandidate(steps[i]) ==> Work(steps'[i]) < Work(steps[i])
  {
    var steps' := AllQueued(steps, ids, queued).0;
    forall i | 0 <= i < |steps|
      ensures StepOk(registry, g', steps', i) && Progresses(steps[i], steps'[i])
              && steps'[i].boundArguments == steps[i].boundArguments
      ensures !QueueCandidate(steps'[i]) && (QueueCandidate(steps[i]) ==> Work(steps'[i]) < Work(steps[i]))
    {
      assert StepOk(registry, g, steps, i);
      StepAfterQueueing(registry, g'.proposals, steps, ids, queued, i);
      StepQueuedOk(registry, g, g', steps[i], steps'[i]);
    }
    forall i ensures StepOk(registry, g', steps', i) {}
  }

  lemma QueueEventEffect(desk: Desk, g: Gov, k: nat, queued: seq<QueuedStep>, now: Text)
    requires GovOk(g) && k < |g.plans| && g.plans[k].id != "" && FindPlan(g.plans, g.plans[k].id) == k
    requires g.plans[k].review == Some(Approved) && queued != []
    ensures var e := BLANK_EVENT.(typ := "tool_plan_step_queue", planId := g.plans[k].id, queued := queued,
                                  at := Some(now));
            var g' := Emit(desk, g, e);
            && GovOk(g') && g'.proposals == g.proposals && g'.receipts == g.receipts
            && k < |g'.plans| && Replaced(g, g', k, g'.plans[k])
            && g'.plans[k].steps == AllQueued(g.plans[k].steps, g.plans[k].materialized, queued).0
  {
    var e := BLANK_EVENT.(typ := "tool_plan_step_queue", planId := g.plans[k].id, queued := queued, at := Some(now));
    ReduceKeeps(desk.env, g, e);
    assert Reduce(desk.env, g, e) == Ok(ReduceStepQueue(g, e));
  }

  lemma QueuedNoDecision(g: Gov, g1: Gov, g': Gov, k: nat)
    requires Appended(g, g1) && g'.proposals == g1.proposals && k < |g'.plans| && Replaced(g1, g', k, g'.plans[k])
    ensures NoDecision(g, g')
  {
    forall i ensures SameReview(g.proposals, g'.proposals, i) {}
  }

  lemma QueueAdvances(desk: Desk, g: Gov, k: nat, i: nat, prefix: Text, now: Text)
    requires PlanInv(desk, g, k) && i < |g.plans[k].steps| && QueueCandidate(g.plans[k].steps[i])
    ensures var (g', answer) := QueueSteps(desk, g, g.plans[k].id, prefix, now);
            && answer == Done && Forward(desk, g, g', k) && g'.receipts == g.receipts
            && SameBound(g.plans[k].steps, g'.plans[k].steps)
            && forall j :: 0 <= j < |g'.plans[k].steps| ==> !QueueCandidate(g'.plans[k].steps[j])
  {
    var plan := g.plans[k];
    QueueingWorks(desk, g, plan, |plan.steps|, prefix);
    assert plan.steps[..|plan.steps|] == plan.steps;
    var (g1, out) := QueueProposals(desk, g, plan, plan.steps, prefix);
    assert Served(plan.steps, |plan.steps|, out.value, i);
    RecordingQueued(desk, g, g1, k, i, out.value, now);
  }

  /** Once the proposals are queued, recording them on the plan is progress. */
  lemma RecordingQueued(desk: Desk, g: Gov, g1: Gov, k: nat, i: nat, queued: seq<QueuedStep>, now: Text)
    requires PlanInv(desk, g, k) && GovOk(g1) && Appended(g, g1) && queued != []
    requires Entries(desk.registry, g1.proposals, g.plans[k].steps, |g.plans[k].steps|, queued)
    requires i < |g.plans[k].steps| && QueueCandidate(g.plans[k].steps[i])
    ensures var e := BLANK_EVENT.(typ := "tool_plan_step_queue", planId := g.plans[k].id, queued := queued,
                                  at := Some(now));
            var g' := Emit(desk, g1, e);
            && Forward(desk, g, g', k) && g'.receipts == g.receipts && SameBound(g.plans[k].steps, g'.plans[k].steps)
            && forall j :: 0 <= j < |g'.plans[k].steps| ==> !QueueCandidate(g'.plans[k].steps[j])
  {
    var plan := g.plans[k];
    QueueEventEffect(desk, g1, k, queued, now);
    var e := BLANK_EVENT.(typ := "tool_plan_step_queue", planId := plan.id, queued := queued, at := Some(now));
    var g' := Emit(desk, g1, e);
    AllStepsQueued(desk.registry, g, g', plan.steps, plan.materialized, queued);
    PlanInvAgain(desk, g, g', k, g'.plans[k]);
    QueuedNoDecision(g, g1, g', k);
    MeasureDrops(plan.steps, g'.plans[k].steps, i) by { ProgressWorks(plan.steps, g'.plans[k].steps); }
  }
}
