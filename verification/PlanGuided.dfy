/** A plan guided to its end: a person approves whatever the runner asks for, the runner
    does the rest.  When does that leave every step approved and executed? */
module PlanGuided {
  import opened Collections
  import opened Governance
  import opened GovernanceProofs
  import opened GovernanceTheorems
  import opened PlanTheorems
  import opened ToolArguments
  import opened PlanRunner
  import opened PlanInvariant
  import opened PlanQueueing
  import opened PlanProgress
  import opened PlanExecuting
  import opened PlanBinding
  import opened PlanAdvance
  import opened PlanCompletion
  import opened PlanLife
  import opened TaskPlanner
  import opened PlanFaults

  // ------------------------------------------------------------- the guidance

  function Approval(proposalId: Text, now: Text): Event {
    BLANK_EVENT.(typ := "proposal_review", proposalId := proposalId, decision := "approved", reason := Some(""),
                 at := Some(now))
  }

  /** Approve the first proposal the runner waits for; otherwise advance. */
  function GuideOnce(desk: Desk, g: Gov, planId: Text, now: Text): Gov {
    var i := FindPlan(g.plans, planId);
    if i == |g.plans| then g
    else
      match NextAction(g.plans[i], g.proposals)
      case NeedsStepReview(waiting) => if waiting == [] then g else Emit(desk, g, Approval(waiting[0].proposalId, now))
      case _ => AdvancePlan(desk, g, planId, now).0
  }

  function Guide(desk: Desk, g: Gov, planId: Text, times: seq<Text>): Gov
    decreases |times|
  {
    if times == [] then g else Guide(desk, GuideOnce(desk, g, planId, times[0]), planId, times[1..])
  }

  // ------------------------------------------------------------ what is left

  predicate StepApproved(queue: seq<Proposal>, s: PlanStep) {
    s.proposalId.Some?
    && var i := FindProposal(queue, s.proposalId.value);
       i < |queue| && queue[i].review == Approved
  }

  /** How many eligible steps have no approved proposal. */
  function Unapproved(queue: seq<Proposal>, steps: seq<PlanStep>): nat {
    if steps == [] then 0
    else
      var last := steps[|steps| - 1];
      Unapproved(queue, steps[..|steps| - 1]) + if Eligible(last) && !StepApproved(queue, last) then 1 else 0
  }

  lemma {:induction false} UnapprovedBound(queue: seq<Proposal>, steps: seq<PlanStep>)
    ensures Unapproved(queue, steps) <= |steps|
  {
    if steps != [] { UnapprovedBound(queue, steps[..|steps| - 1]); }
  }

  /** Step `i` is approved if it was before. */
  ghost predicate StaysApproved(q: seq<Proposal>, a: seq<PlanStep>, q': seq<Proposal>, b: seq<PlanStep>, i: int) {
    0 <= i < |a| && i < |b| ==>
        (Eligible(b[i]) <==> Eligible(a[i])) && (StepApproved(q, a[i]) ==> StepApproved(q', b[i]))
  }

  lemma {:induction false} UnapprovedMonotone(q: seq<Proposal>, a: seq<PlanStep>, q': seq<Proposal>, b: seq<PlanStep>)
    requires |a| == |b| && forall i {:trigger StaysApproved(q, a, q', b, i)} :: StaysApproved(q, a, q', b, i)
    ensures Unapproved(q', b) <= Unapproved(q, a)
  {
    if a != [] {
      var n := |a| - 1;
      forall i ensures StaysApproved(q, a[..n], q', b[..n], i) { assert StaysApproved(q, a, q', b, i); }
      UnapprovedMonotone(q, a[..n], q', b[..n]);
      assert StaysApproved(q, a, q', b, n);
    }
  }

  lemma {:induction false} UnapprovedDrops(q: seq<Proposal>, a: seq<PlanStep>, q': seq<Proposal>, b: seq<PlanStep>,
                                           i: nat)
    requires |a| == |b| && (forall i {:trigger StaysApproved(q, a, q', b, i)} :: StaysApproved(q, a, q', b, i))
    requires i < |a| && Eligible(a[i]) && !StepApproved(q, a[i]) && StepApproved(q', b[i])
    ensures Unapproved(q', b) < Unapproved(q, a)
  {
    var n := |a| - 1;
    forall j ensures StaysApproved(q, a[..n], q', b[..n], j) { assert StaysApproved(q, a, q', b, j); }
    assert StaysApproved(q, a, q', b, n) && StaysApproved(q, a, q', b, i);
    if i == n { UnapprovedMonotone(q, a[..n], q', b[..n]); } else { UnapprovedDrops(q, a[..n], q', b[..n], i); }
  }

  function Left(g: Gov, k: nat): nat
    requires k < |g.plans|
  {
    Measure(g.plans[k].steps) + Unapproved(g.proposals, g.plans[k].steps)
  }

  // ------------------------------------------------- whose proposals they are

  /** Old proposals keep their ids; a step has the proposal it had, or a new one. */
  ghost predicate OwnProposals(g: Gov, g': Gov, k: nat)
    requires k < |g.plans| && k < |g'.plans| && |g'.plans[k].steps| == |g.plans[k].steps|
  {
    && |g.proposals| <= |g'.proposals|
    && (forall i :: 0 <= i < |g.proposals| ==> g'.proposals[i].id == g.proposals[i].id)
    && forall i :: 0 <= i < |g.plans[k].steps| ==>
         var id := g'.plans[k].steps[i].proposalId;
         id == g.plans[k].steps[i].proposalId || (id.Some? && FindProposal(g'.proposals, id.value) >= |g.proposals|)
  }

  /** Each entry is for a proposal added since the queue was `base` long. */
  ghost predicate NewEntries(queue: seq<Proposal>, base: nat, queued: seq<QueuedStep>) {
    forall x :: 0 <= x < |queued| ==>
      queued[x].proposalId.Some? && base <= FindProposal(queue, queued[x].proposalId.value) < |queue|
  }

  lemma NewEntriesStable(a: seq<Proposal>, b: seq<Proposal>, base: nat, queued: seq<QueuedStep>)
    requires NewEntries(a, base, queued) && a <= b
    ensures NewEntries(b, base, queued)
  {
    forall x | 0 <= x < |queued|
      ensures FindProposal(b, queued[x].proposalId.value)
              == FindProposal(a, queued[x].proposalId.value)
    {
      FindProposalStable(a, b, queued[x].proposalId.value);
    }
  }

  /** What `QueueingWorks` says of the queue alone. */
  lemma QueueingGrows(desk: Desk, g: Gov, plan: Plan, n: nat, prefix: Text)
    requires GovOk(g) && RegistryOk(desk.registry) && ShapeOk(desk.registry, plan.steps) && n <= |plan.steps|
    ensures var (g', queued) := QueueProposals(desk, g, plan, plan.steps[..n], prefix);
            queued.Ok? && GovOk(g') && |g.proposals| <= |g'.proposals|
  {
    QueueingWorks(desk, g, plan, n, prefix);
  }

  lemma QueueingNext(desk: Desk, g: Gov, plan: Plan, n: nat, prefix: Text)
    requires n < |plan.steps| && QueueProposals(desk, g, plan, plan.steps[..n], prefix).1.Ok?
    ensures var (g1, queued) := QueueProposals(desk, g, plan, plan.steps[..n], prefix);
            QueueProposals(desk, g, plan, plan.steps[..n + 1], prefix)
            == QueueNext(desk, g1, plan, plan.steps[n], prefix, queued.value)
  {
    assert plan.steps[..n + 1][..n] == plan.steps[..n];
  }

  lemma {:induction false} QueuedAreNew(desk: Desk, g: Gov, plan: Plan, n: nat, prefix: Text)
    requires GovOk(g) && RegistryOk(desk.registry) && ShapeOk(desk.registry, plan.steps) && n <= |plan.steps|
    ensures var (g', queued) := QueueProposals(desk, g, plan, plan.steps[..n], prefix);
            queued.Ok? && NewEntries(g'.proposals, |g.proposals|, queued.value)
    decreases n
  {
    if n > 0 {
      QueuedAreNew(desk, g, plan, n - 1, prefix);
      QueueingGrows(desk, g, plan, n - 1, prefix);
      QueueingNext(desk, g, plan, n - 1, prefix);
      var (g1, queued) := QueueProposals(desk, g, plan, plan.steps[..n - 1], prefix);
      NextIsNew(desk, g1, plan, n - 1, prefix, |g.proposals|, queued.value);
    }
  }

  lemma NextIsNew(desk: Desk, g: Gov, plan: Plan, n: nat, prefix: Text, base: nat, queued: seq<QueuedStep>)
    requires GovOk(g) && RegistryOk(desk.registry) && ShapeOk(desk.registry, plan.steps)
    requires n < |plan.steps| && base <= |g.proposals| && NewEntries(g.proposals, base, queued)
    ensures var (g', more) := QueueNext(desk, g, plan, plan.steps[n], prefix, queued);
            more.Ok? && NewEntries(g'.proposals, base, more.value)
  {
    var s := plan.steps[n];
    if QueueCandidate(s) {
      assert Queueable(desk.registry, plan.steps, n);
      QueueOne(desk, g, s, StepReason(plan, s, prefix));
      var g' := QueueNext(desk, g, plan, s, prefix, queued).0;
      NewEntriesGrow(g.proposals, g'.proposals, s.id, base, queued);
    }
  }

  /** The entry for the proposal just appended is a new one. */
  lemma NewEntriesGrow(before: seq<Proposal>, after: seq<Proposal>, stepId: Text, base: nat, queued: seq<QueuedStep>)
    requires QueueOk(after) && before <= after && |after| == |before| + 1
    requires base <= |before| && NewEntries(before, base, queued)
    ensures NewEntries(after, base, queued + [QueuedStep(stepId, Some(after[|before|].id))])
  {
    var more := queued + [QueuedStep(stepId, Some(after[|before|].id))];
    NewEntriesStable(before, after, base, queued);
    FindIs(after, |before|);
    forall x | 0 <= x < |more|
      ensures more[x].proposalId.Some? && base <= FindProposal(after, more[x].proposalId.value) < |after|
    {
      if x < |queued| { assert more[x] == queued[x]; }
    }
  }

  lemma QueueingIsNew(desk: Desk, g: Gov, k: nat, i: nat, prefix: Text)
    requires PlanInv(desk, g, k) && i < |g.plans[k].steps| && QueueCandidate(g.plans[k].steps[i])
    ensures var (g1, queued) := QueueProposals(desk, g, g.plans[k], g.plans[k].steps, prefix);
            && queued.Ok? && queued.value != [] && GovOk(g1) && Appended(g, g1)
            && NewEntries(g1.proposals, |g.proposals|, queued.value)
  {
    var plan := g.plans[k];
    QueueingWorks(desk, g, plan, |plan.steps|, prefix);
    QueuedAreNew(desk, g, plan, |plan.steps|, prefix);
    assert plan.steps[..|plan.steps|] == plan.steps;
    assert Served(plan.steps, |plan.steps|, QueueProposals(desk, g, plan, plan.steps, prefix).1.value, i);
  }

  lemma QueueOwns(desk: Desk, g: Gov, k: nat, i: nat, prefix: Text, now: Text)
    requires PlanInv(desk, g, k) && i < |g.plans[k].steps| && QueueCandidate(g.plans[k].steps[i])
    ensures var g' := QueueSteps(desk, g, g.plans[k].id, prefix, now).0;
            k < |g'.plans| && |g'.plans[k].steps| == |g.plans[k].steps| && OwnProposals(g, g', k)
  {
    QueueingIsNew(desk, g, k, i, prefix);
    var (g1, queued) := QueueProposals(desk, g, g.plans[k], g.plans[k].steps, prefix);
    RecordedOwns(desk, g, g1, k, queued.value, now);
  }

  lemma RecordedOwns(desk: Desk, g: Gov, g1: Gov, k: nat, queued: seq<QueuedStep>, now: Text)
    requires PlanInv(desk, g, k) && GovOk(g1) && Appended(g, g1) && queued != []
    requires NewEntries(g1.proposals, |g.proposals|, queued)
    ensures var e := BLANK_EVENT.(typ := "tool_plan_step_queue", planId := g.plans[k].id, queued := queued,
                                  at := Some(now));
            var g' := Emit(desk, g1, e);
            k < |g'.plans| && |g'.plans[k].steps| == |g.plans[k].steps| && OwnProposals(g, g', k)
  {
    var plan := g.plans[k];
    QueueEventEffect(desk, g1, k, queued, now);
    var steps := AllQueued(plan.steps, plan.materialized, queued).0;
    forall j | 0 <= j < |plan.steps|
      ensures var id := steps[j].proposalId;
              id == plan.steps[j].proposalId || (id.Some? && FindProposal(g1.proposals, id.value) >= |g.proposals|)
    {
      var x := AllQueuedAt(plan.steps, plan.materialized, queued, j);
    }
  }

  lemma ExecutionOwns(desk: Desk, g: Gov, k: nat, reason: Text, now: Text)
    requires PlanInv(desk, g, k) && NonFailing(desk)
    ensures var g' := RequestExecution(desk, g, g.plans[k].id, reason, now).0;
            k < |g'.plans| && |g'.plans[k].steps| == |g.plans[k].steps| && OwnProposals(g, g', k)
  {
    var plan := g.plans[k];
    forall j | 0 <= j < |plan.steps| ensures QueuedOk(desk.registry, g.proposals, plan.steps[j]) {
      assert StepOk(desk.registry, g, plan.steps, j);
    }
    ExecutingWorks(desk, g, plan, |plan.steps|, reason, now);
    assert plan.steps[..|plan.steps|] == plan.steps;
    var (g1, executed) := ExecuteProposals(desk, g, plan, plan.steps, reason, now);
    if executed.value != [] { RecordedExecutionOwns(desk, g, g1, k, executed.value, now); }
  }

  lemma RecordedExecutionOwns(desk: Desk, g: Gov, g1: Gov, k: nat, executed: seq<ExecutedStep>, now: Text)
    requires PlanInv(desk, g, k) && GovOk(g1) && Issued(g, g1) && executed != []
    ensures var e := BLANK_EVENT.(typ := "tool_plan_execution_request", planId := g.plans[k].id,
                                  executed := executed, at := Some(now));
            var g' := Emit(desk, g1, e);
            k < |g'.plans| && |g'.plans[k].steps| == |g.plans[k].steps| && OwnProposals(g, g', k)
  {
    var plan := g.plans[k];
    ExecutionEventEffect(desk, g1, k, executed, now);
    forall j | 0 <= j < |plan.steps|
      ensures AllExecuted(plan.steps, plan.receiptIds, executed).0[j].proposalId == plan.steps[j].proposalId
    {
      var x := AllExecutedAt(plan.steps, plan.receiptIds, executed, j);
    }
  }

  lemma BindingOwns(desk: Desk, g: Gov, k: nat, now: Text)
    requires PlanInv(desk, g, k)
    ensures var g' := BindResults(desk, g, g.plans[k].id, now).0;
            k < |g'.plans| && |g'.plans[k].steps| == |g.plans[k].steps| && OwnProposals(g, g', k)
  {
    var plan := g.plans[k];
    var bindings := Bindings(desk, g, plan.steps);
    if bindings != [] {
      BindingEventEffect(desk, g, k, bindings, now);
      AllBoundSame(g.proposals, plan.steps, plan.boundCount, bindings, Some(now));
      BoundSame(g.proposals, plan.steps, plan.boundCount, bindings, Some(now));
    }
  }

  /** An advance gives a step its own proposal or none. */
  lemma AdvanceOwns(desk: Desk, g: Gov, k: nat, now: Text)
    requires PlanInv(desk, g, k) && NonFailing(desk) && CanAdvance(NextAction(g.plans[k], g.proposals))
    ensures var g' := AdvancePlan(desk, g, g.plans[k].id, now).0;
            k < |g'.plans| && |g'.plans[k].steps| == |g.plans[k].steps| && OwnProposals(g, g', k)
  {
    var action := NextAction(g.plans[k], g.proposals);
    if action.CanQueue? {
      var i := CanQueueGives(g, k);
      QueueOwns(desk, g, k, i, "guided advance queued step proposals; ", now);
    } else if action.CanBind? {
      BindingOwns(desk, g, k, now);
    } else {
      ExecutionOwns(desk, g, k, "guided advance requested approved step execution", now);
      RequestIs(desk, g, k, now);
    }
  }

  // ----------------------------------------------------------- decisions kept

  /** No proposal of the plan was denied. */
  ghost predicate NoneDenied(queue: seq<Proposal>, steps: seq<PlanStep>) {
    forall i :: 0 <= i < |steps| && steps[i].proposalId.Some? ==>
      var j := FindProposal(queue, steps[i].proposalId.value); j < |queue| ==> queue[j].review != Denied
  }

  /** Reviews were only made by approving, and each step has its own proposal still. */
  ghost predicate OnlyApproved(g: Gov, g': Gov, k: nat)
    requires k < |g.plans|
  {
    && k < |g'.plans| && StepsProgress(g.plans[k].steps, g'.plans[k].steps) && OwnProposals(g, g', k)
    && (forall i :: 0 <= i < |g.proposals| ==> g'.proposals[i].review == g.proposals[i].review
                                               || (g.proposals[i].review == Pending
                                                   && g'.proposals[i].review == Approved))
    && (forall i :: |g.proposals| <= i < |g'.proposals| ==> g'.proposals[i].review == Pending)
  }

  lemma StillFound(g: Gov, g': Gov, k: nat, i: nat)
    requires k < |g.plans| && OnlyApproved(g, g', k) && i < |g.plans[k].steps|
    requires var id := g'.plans[k].steps[i].proposalId;
             id.Some? && id == g.plans[k].steps[i].proposalId && FindProposal(g.proposals, id.value) < |g.proposals|
    ensures var id := g'.plans[k].steps[i].proposalId.value;
            FindProposal(g'.proposals, id) == FindProposal(g.proposals, id)
  {
    FindProposalStable(g.proposals, g'.proposals, g'.plans[k].steps[i].proposalId.value);
  }

  lemma ApprovedStay(desk: Desk, g: Gov, g': Gov, k: nat)
    requires PlanInv(desk, g, k) && OnlyApproved(g, g', k)
    ensures var a, b := g.plans[k].steps, g'.plans[k].steps;
            forall i {:trigger StaysApproved(g.proposals, a, g'.proposals, b, i)} ::
                StaysApproved(g.proposals, a, g'.proposals, b, i)
  {
    var a, b := g.plans[k].steps, g'.plans[k].steps;
    forall i ensures StaysApproved(g.proposals, a, g'.proposals, b, i) {
      if 0 <= i < |a| {
        assert Progresses(a[i], b[i]);
        if StepApproved(g.proposals, a[i]) { StillFound(g, g', k, i); }
      }
    }
  }

  lemma NoneDeniedKept(desk: Desk, g: Gov, g': Gov, k: nat)
    requires PlanInv(desk, g, k) && OnlyApproved(g, g', k) && NoneDenied(g.proposals, g.plans[k].steps)
    ensures NoneDenied(g'.proposals, g'.plans[k].steps)
  {
    var a, b := g.plans[k].steps, g'.plans[k].steps;
    forall i | 0 <= i < |b| && b[i].proposalId.Some?
      ensures var j := FindProposal(g'.proposals, b[i].proposalId.value);
              j < |g'.proposals| ==> g'.proposals[j].review != Denied
    {
      assert StepOk(desk.registry, g, a, i);
      if b[i].proposalId == a[i].proposalId { StillFound(g, g', k, i); }
    }
  }

  lemma AdvanceOnlyApproves(desk: Desk, g: Gov, k: nat, now: Text)
    requires GuidedInv(desk, g, k) && NonFailing(desk) && CanAdvance(NextAction(g.plans[k], g.proposals))
    ensures var g' := AdvancePlan(desk, g, g.plans[k].id, now).0;
            && GuidedInv(desk, g', k) && g'.plans[k].id == g.plans[k].id
            && Measure(g'.plans[k].steps) < Measure(g.plans[k].steps) && OnlyApproved(g, g', k)
  {
    AdvanceProgresses(desk, g, k, now);
    AdvanceOwns(desk, g, k, now);
    var g' := AdvancePlan(desk, g, g.plans[k].id, now).0;
    forall i | 0 <= i < |g'.proposals|
      ensures if i < |g.proposals| then g'.proposals[i].review == g.proposals[i].review
              else g'.proposals[i].review == Pending
    {
      assert SameReview(g.proposals, g'.proposals, i);
    }
  }

  // ------------------------------------------------------ approving a proposal

  lemma {:induction false} SelectFirst(test: Test, steps: seq<PlanStep>, queue: seq<Proposal>, eligible: seq<PlanStep>)
      returns (s: PlanStep)
    requires Select(test, steps, queue, eligible) != []
    ensures s in steps && Passes(test, s, queue, eligible) && Select(test, steps, queue, eligible)[0] == ReadyOf(s)
    decreases |steps|
  {
    var front, last := steps[..|steps| - 1], steps[|steps| - 1];
    if Select(test, front, queue, eligible) != [] {
      s := SelectFirst(test, front, queue, eligible);
    } else {
      s := last;
    }
  }

  /** What the runner waits for first: a step of the plan with a pending proposal that
      waits for no result. */
  lemma AwaitedFirst(desk: Desk, g: Gov, k: nat) returns (i: nat)
    requires PlanInv(desk, g, k) && NextAction(g.plans[k], g.proposals).NeedsStepReview?
    ensures var steps, action := g.plans[k].steps, NextAction(g.plans[k], g.proposals);
            && i < |steps| && Eligible(steps[i]) && AwaitsReview(steps[i], g.proposals) && action.waitingOn != []
            && steps[i].proposalId == Some(action.waitingOn[0].proposalId)
            && var j := FindProposal(g.proposals, action.waitingOn[0].proposalId);
               j < |g.proposals| && g.proposals[j].review == Pending
  {
    var steps := g.plans[k].steps;
    var eligible := EligibleSteps(steps);
    var s := SelectFirst(IsAwaiting, eligible, g.proposals, eligible);
    i := EligiblePosition(steps, s);
    NoneNotFound(g.proposals);
    LookupIsFind(g.proposals, s.proposalId.value);
  }

  lemma ApprovalApproves(desk: Desk, g: Gov, k: nat, id: Text, now: Text)
    requires PlanInv(desk, g, k)
    requires var j := FindProposal(g.proposals, id); j < |g.proposals| && g.proposals[j].review == Pending
    ensures var g' := Emit(desk, g, Approval(id, now));
            && PlanInv(desk, g', k) && g'.plans[k] == g.plans[k] && OnlyApproved(g, g', k)
            && |g'.proposals| == |g.proposals| && g'.proposals[FindProposal(g.proposals, id)].review == Approved
            && (forall i ::
                  0 <= i < |g.proposals| && i != FindProposal(g.proposals, id) ==> g'.proposals[i] == g.proposals[i])
  {
    ReviewApproves(desk, g, Approval(id, now), FindProposal(g.proposals, id));
    OutsideKeeps(desk, g, k, Approval(id, now));
  }

  lemma ApprovingIs(desk: Desk, g: Gov, k: nat, now: Text)
    requires k < |g.plans| && FindPlan(g.plans, g.plans[k].id) == k
    requires NextAction(g.plans[k], g.proposals).NeedsStepReview? && NextAction(g.plans[k], g.proposals).waitingOn != []
    ensures GuideOnce(desk, g, g.plans[k].id, now)
            == Emit(desk, g, Approval(NextAction(g.plans[k], g.proposals).waitingOn[0].proposalId, now))
  {
  }

  lemma ApprovalCounts(desk: Desk, g: Gov, g': Gov, k: nat, i: nat)
    requires PlanInv(desk, g, k) && OnlyApproved(g, g', k) && g'.plans[k] == g.plans[k]
    requires i < |g.plans[k].steps| && Eligible(g.plans[k].steps[i]) && g.plans[k].steps[i].proposalId.Some?
    requires var j := FindProposal(g.proposals, g.plans[k].steps[i].proposalId.value);
             && j < |g.proposals| == |g'.proposals| && g.proposals[j].review == Pending
             && g'.proposals[j].review == Approved
    ensures Unapproved(g'.proposals, g'.plans[k].steps) < Unapproved(g.proposals, g.plans[k].steps)
  {
    var steps := g.plans[k].steps;
    ApprovedStay(desk, g, g', k);
    FindProposalStable(g.proposals, g'.proposals, steps[i].proposalId.value);
    UnapprovedDrops(g.proposals, steps, g'.proposals, steps, i);
  }

  lemma ApprovingApproves(desk: Desk, g: Gov, k: nat, now: Text)
    requires GuidedInv(desk, g, k) && NextAction(g.plans[k], g.proposals).NeedsStepReview?
    ensures var g' := GuideOnce(desk, g, g.plans[k].id, now);
            && GuidedInv(desk, g', k) && g'.plans[k] == g.plans[k] && OnlyApproved(g, g', k)
            && Unapproved(g'.proposals, g'.plans[k].steps) < Unapproved(g.proposals, g.plans[k].steps)
  {
    var i := AwaitedFirst(desk, g, k);
    ApprovingIs(desk, g, k, now);
    ApprovalApproves(desk, g, k, NextAction(g.plans[k], g.proposals).waitingOn[0].proposalId, now);
    ApprovalCounts(desk, g, GuideOnce(desk, g, g.plans[k].id, now), k, i);
  }

  // ------------------------------------------------------------- to the end

  /** One turn of the guidance brings the plan nearer its end, unless it is there. */
  lemma GuideOnceProgresses(desk: Desk, g: Gov, k: nat, now: Text)
    requires GuidedInv(desk, g, k) && NonFailing(desk) && NoneDenied(g.proposals, g.plans[k].steps)
    ensures var g' := GuideOnce(desk, g, g.plans[k].id, now);
            && GuidedInv(desk, g', k) && g'.plans[k].id == g.plans[k].id && NoneDenied(g'.proposals, g'.plans[k].steps)
            && StepsProgress(g.plans[k].steps, g'.plans[k].steps)
            && if NextAction(g.plans[k], g.proposals).Complete? then g' == g else Left(g', k) < Left(g, k)
  {
    var action := NextAction(g.plans[k], g.proposals);
    var g' := GuideOnce(desk, g, g.plans[k].id, now);
    if action.NeedsStepReview? {
      ApprovingApproves(desk, g, k, now);
      NoneDeniedKept(desk, g, g', k);
    } else if CanAdvance(action) {
      AdvanceOnlyApproves(desk, g, k, now);
      ApprovedStay(desk, g, g', k);
      UnapprovedMonotone(g.proposals, g.plans[k].steps, g'.proposals, g'.plans[k].steps);
      NoneDeniedKept(desk, g, g', k);
    } else {
      NeverBlocked(desk, g, k);
      forall i | 0 <= i < |g.plans[k].steps| ensures Progresses(g.plans[k].steps[i], g.plans[k].steps[i]) {}
    }
  }

  lemma NeverBlocked(desk: Desk, g: Gov, k: nat)
    requires PlanInv(desk, g, k) && NoneDenied(g.proposals, g.plans[k].steps)
    ensures var action := NextAction(g.plans[k], g.proposals);
            !action.BlockedByDenied? && !action.NeedsPlanReview? && !action.PlanDenied?
  {
    var steps := g.plans[k].steps;
    var eligible := EligibleSteps(steps);
    if NextAction(g.plans[k], g.proposals).BlockedByDenied? {
      var s := SelectGives(IsDenied, eligible, g.proposals, eligible);
      var i := EligiblePosition(steps, s);
      NoneNotFound(g.proposals);
      LookupIsFind(g.proposals, s.proposalId.value);
    }
  }

  /** However the plan starts, at most one turn for each thing left to do or to approve
      brings it to where the runner calls it complete. */
  lemma {:induction false} GuideCompletes(desk: Desk, g: Gov, k: nat, times: seq<Text>)
    requires GuidedInv(desk, g, k) && NonFailing(desk) && NoneDenied(g.proposals, g.plans[k].steps)
    requires |times| >= Left(g, k)
    ensures var end := Guide(desk, g, g.plans[k].id, times);
            && GuidedInv(desk, end, k) && NextAction(end.plans[k], end.proposals).Complete?
            && StepsProgress(g.plans[k].steps, end.plans[k].steps)
    decreases |times|
  {
    if times != [] {
      GuideOnceProgresses(desk, g, k, times[0]);
      var g' := GuideOnce(desk, g, g.plans[k].id, times[0]);
      if g' == g { StaysComplete(desk, g, k, times); } else {
        GuideCompletes(desk, g', k, times[1..]);
        ProgressAgain(g.plans[k].steps, g'.plans[k].steps, Guide(desk, g, g.plans[k].id, times).plans[k].steps);
      }
    } else {
      GuideOnceProgresses(desk, g, k, "");
    }
  }

  lemma {:induction false} StaysComplete(desk: Desk, g: Gov, k: nat, times: seq<Text>)
    requires GuidedInv(desk, g, k) && NonFailing(desk) && NoneDenied(g.proposals, g.plans[k].steps)
    requires NextAction(g.plans[k], g.proposals).Complete?
    ensures Guide(desk, g, g.plans[k].id, times) == g && StepsProgress(g.plans[k].steps, g.plans[k].steps)
    decreases |times|
  {
    forall i | 0 <= i < |g.plans[k].steps| ensures Progresses(g.plans[k].steps[i], g.plans[k].steps[i]) {}
    if times != [] {
      GuideOnceProgresses(desk, g, k, times[0]);
      StaysComplete(desk, g, k, times[1..]);
    }
  }

  // ------------------------------------------------- tasks that wait in vain

  /** The summary of a task that waits in vain: never approved, never given a result. */
  ghost predicate SummaryWaits(desk: Desk, g: Gov, k: nat, task: Text, found: Found, agentMode: bool) {
    && PlanOfTask(desk, g, k, task, found, agentMode)
    && var m := |ReadSteps(task, found)|;
       && m < |g.plans[k].steps| && Eligible(g.plans[k].steps[m])
       && !Bound(g.plans[k].steps[m]) && !StepApproved(g.proposals, g.plans[k].steps[m])
  }

  lemma VainNeverBinds(desk: Desk, g: Gov, k: nat, task: Text, found: Found, agentMode: bool)
    requires PlanOfTask(desk, g, k, task, found, agentMode) && WaitsInVain(desk.registry, task, found)
    ensures !NextAction(g.plans[k], g.proposals).CanBind?
  {
    if NextAction(g.plans[k], g.proposals).CanBind? {
      var i := CanBindGives(g, k);
      var steps := g.plans[k].steps;
      assert StepOk(desk.registry, g, steps, i);
      BindableProposal(desk.registry, g, steps[i], EligibleSteps(steps));
      assert Progresses(TaskSteps(desk.registry, task, found, agentMode)[i], steps[i]);
      OnlySummaryWaits(desk.registry, task, found, agentMode, i);
      VainHasNoPrior(desk, g, k, task, found, agentMode);
    }
  }

  /** Only the summarizing step is for the summarizing tool. */
  lemma OnlySummarySummarizes(desk: Desk, g: Gov, k: nat, task: Text, found: Found, agentMode: bool, i: nat)
    requires PlanOfTask(desk, g, k, task, found, agentMode) && i < |g.plans[k].steps|
    requires g.plans[k].steps[i].toolId == Some("text.summarize")
    ensures i == |ReadSteps(task, found)|
  {
    FewCandidates(task, found);
    assert Progresses(TaskSteps(desk.registry, task, found, agentMode)[i], g.plans[k].steps[i]);
    CandidateOrder(task, found, i);
  }

  /** The proposal approved next is not the summary's. */
  lemma SummaryNotAwaited(desk: Desk, g: Gov, k: nat, task: Text, found: Found, agentMode: bool)
    requires SummaryWaits(desk, g, k, task, found, agentMode) && WaitsInVain(desk.registry, task, found)
    requires NextAction(g.plans[k], g.proposals).NeedsStepReview?
    ensures var action, s := NextAction(g.plans[k], g.proposals), g.plans[k].steps[|ReadSteps(task, found)|];
            action.waitingOn != [] && s.proposalId != Some(action.waitingOn[0].proposalId)
  {
    var steps, m := g.plans[k].steps, |ReadSteps(task, found)|;
    var i := AwaitedFirst(desk, g, k);
    assert StepOk(desk.registry, g, steps, i) && StepOk(desk.registry, g, steps, m);
    assert Progresses(TaskSteps(desk.registry, task, found, agentMode)[m], steps[m]);
    OnlySummaryWaits(desk.registry, task, found, agentMode, m);
    if steps[m].proposalId == steps[i].proposalId {
      OnlySummarySummarizes(desk, g, k, task, found, agentMode, i);
      NoneNotFound(g.proposals);
    }
  }

  lemma ApprovalPassesSummary(desk: Desk, g: Gov, k: nat, task: Text, found: Found, agentMode: bool, now: Text)
    requires SummaryWaits(desk, g, k, task, found, agentMode) && WaitsInVain(desk.registry, task, found)
    requires GuidedInv(desk, g, k) && NextAction(g.plans[k], g.proposals).NeedsStepReview?
    ensures SummaryWaits(desk, GuideOnce(desk, g, g.plans[k].id, now), k, task, found, agentMode)
  {
    SummaryNotAwaited(desk, g, k, task, found, agentMode);
    var i := AwaitedFirst(desk, g, k);
    ApprovingIs(desk, g, k, now);
    var id := NextAction(g.plans[k], g.proposals).waitingOn[0].proposalId;
    ApprovalApproves(desk, g, k, id, now);
    OthersStayUnapproved(g, GuideOnce(desk, g, g.plans[k].id, now), g.plans[k].steps[|ReadSteps(task, found)|], id);
  }

  lemma OthersStayUnapproved(g: Gov, g': Gov, s: PlanStep, id: Text)
    requires |g'.proposals| == |g.proposals|
             && (forall i :: 0 <= i < |g.proposals| ==> g'.proposals[i].id == g.proposals[i].id)
    requires forall i ::
               0 <= i < |g.proposals| && i != FindProposal(g.proposals, id) ==> g'.proposals[i] == g.proposals[i]
    requires s.proposalId != Some(id) && !StepApproved(g.proposals, s)
    ensures !StepApproved(g'.proposals, s)
  {
    if s.proposalId.Some? { FindSame(g.proposals, g'.proposals, s.proposalId.value); }
  }

  lemma AdvancePassesSummary(desk: Desk, g: Gov, k: nat, task: Text, found: Found, agentMode: bool, now: Text)
    requires SummaryWaits(desk, g, k, task, found, agentMode) && WaitsInVain(desk.registry, task, found)
    requires GuidedInv(desk, g, k) && NonFailing(desk) && CanAdvance(NextAction(g.plans[k], g.proposals))
    ensures SummaryWaits(desk, AdvancePlan(desk, g, g.plans[k].id, now).0, k, task, found, agentMode)
  {
    var g', m := AdvancePlan(desk, g, g.plans[k].id, now).0, |ReadSteps(task, found)|;
    AdvanceOnlyApproves(desk, g, k, now);
    AdvanceBindsNothing(desk, g, k, task, found, agentMode, now);
    AdvanceProgresses(desk, g, k, now);
    ProgressAgain(TaskSteps(desk.registry, task, found, agentMode), g.plans[k].steps, g'.plans[k].steps);
    assert Progresses(g.plans[k].steps[m], g'.plans[k].steps[m]);
    AdvanceLeavesUnapproved(desk, g, k, now, m);
  }

  lemma AdvanceBindsNothing(desk: Desk, g: Gov, k: nat, task: Text, found: Found, agentMode: bool, now: Text)
    requires PlanOfTask(desk, g, k, task, found, agentMode) && WaitsInVain(desk.registry, task, found)
    requires NonFailing(desk) && CanAdvance(NextAction(g.plans[k], g.proposals))
    ensures var g' := AdvancePlan(desk, g, g.plans[k].id, now).0;
            k < |g'.plans| && SameBound(g.plans[k].steps, g'.plans[k].steps)
  {
    VainNeverBinds(desk, g, k, task, found, agentMode);
    if NextAction(g.plans[k], g.proposals).CanQueue? {
      AdvanceQueuesOnly(desk, g, k, now);
    } else {
      AdvanceExecutesOnly(desk, g, k, now);
    }
  }

  lemma AdvanceQueuesOnly(desk: Desk, g: Gov, k: nat, now: Text)
    requires PlanInv(desk, g, k) && NextAction(g.plans[k], g.proposals).CanQueue?
    ensures var g' := AdvancePlan(desk, g, g.plans[k].id, now).0;
            k < |g'.plans| && SameBound(g.plans[k].steps, g'.plans[k].steps)
  {
    var i := CanQueueGives(g, k);
    QueueAdvances(desk, g, k, i, "guided advance queued step proposals; ", now);
  }

  lemma AdvanceExecutesOnly(desk: Desk, g: Gov, k: nat, now: Text)
    requires PlanInv(desk, g, k) && NonFailing(desk) && NextAction(g.plans[k], g.proposals).CanExecute?
    ensures var g' := AdvancePlan(desk, g, g.plans[k].id, now).0;
            k < |g'.plans| && SameBound(g.plans[k].steps, g'.plans[k].steps)
  {
    var i := CanExecuteGives(desk, g, k);
    ExecutionAdvances(desk, g, k, i, "guided advance requested approved step execution", now);
    RequestIs(desk, g, k, now);
  }

  /** No step becomes approved by an advance. */
  lemma AdvanceLeavesUnapproved(desk: Desk, g: Gov, k: nat, now: Text, i: nat)
    requires GuidedInv(desk, g, k) && NonFailing(desk) && CanAdvance(NextAction(g.plans[k], g.proposals))
    requires i < |g.plans[k].steps| && !StepApproved(g.proposals, g.plans[k].steps[i])
    ensures var g' := AdvancePlan(desk, g, g.plans[k].id, now).0;
            k < |g'.plans| && i < |g'.plans[k].steps| && !StepApproved(g'.proposals, g'.plans[k].steps[i])
  {
    AdvanceProgresses(desk, g, k, now);
    AdvanceOnlyApproves(desk, g, k, now);
    var g' := AdvancePlan(desk, g, g.plans[k].id, now).0;
    var s := g'.plans[k].steps[i];
    assert StepOk(desk.registry, g, g.plans[k].steps, i);
    if s.proposalId.Some? {
      var j := FindProposal(g'.proposals, s.proposalId.value);
      if s.proposalId == g.plans[k].steps[i].proposalId { StillFound(g, g', k, i); }
      assert SameReview(g.proposals, g'.proposals, j);
    }
  }

  lemma {:induction false} SummaryNeverDone(desk: Desk, g: Gov, k: nat, task: Text, found: Found, agentMode: bool,
                                            times: seq<Text>)
    requires SummaryWaits(desk, g, k, task, found, agentMode) && WaitsInVain(desk.registry, task, found)
    requires GuidedInv(desk, g, k) && NonFailing(desk) && NoneDenied(g.proposals, g.plans[k].steps)
    ensures SummaryWaits(desk, Guide(desk, g, g.plans[k].id, times), k, task, found, agentMode)
    decreases |times|
  {
    if times != [] {
      GuideOnceProgresses(desk, g, k, times[0]);
      GuideOncePasses(desk, g, k, task, found, agentMode, times[0]);
      SummaryNeverDone(desk, GuideOnce(desk, g, g.plans[k].id, times[0]), k, task, found, agentMode, times[1..]);
    }
  }

  lemma GuideOncePasses(desk: Desk, g: Gov, k: nat, task: Text, found: Found, agentMode: bool, now: Text)
    requires SummaryWaits(desk, g, k, task, found, agentMode) && WaitsInVain(desk.registry, task, found)
    requires GuidedInv(desk, g, k) && NonFailing(desk) && NoneDenied(g.proposals, g.plans[k].steps)
    ensures SummaryWaits(desk, GuideOnce(desk, g, g.plans[k].id, now), k, task, found, agentMode)
  {
    var action := NextAction(g.plans[k], g.proposals);
    if action.NeedsStepReview? {
      ApprovalPassesSummary(desk, g, k, task, found, agentMode, now);
    } else if CanAdvance(action) {
      AdvancePassesSummary(desk, g, k, task, found, agentMode, now);
    } else {
      NeverBlocked(desk, g, k);
    }
  }

  // ---------------------------------------------------------- from task to end

  /** A plan the planner built is approved, and then guided: whatever the runner waits for
      is approved, all else is advanced.  Four turns per step bring it to where the runner
      calls it complete; and then every eligible step is approved and executed if and only
      if the task does not wait in vain. */
  lemma GuidedToDoneIff(desk: Desk, log: seq<Event>, k: nat, e: Event, task: Text, found: Found, agentMode: bool,
                        times: seq<Text>)
    requires RegistryOk(desk.registry) && NonFailing(desk)
    requires var g := Final(desk.env, log);
             && k < |g.plans| && g.plans[k].id != "" && FindPlan(g.plans, g.plans[k].id) == k && PlanPending(g.plans[k])
             && g.plans[k].steps == TaskSteps(desk.registry, task, found, agentMode)
             && e.typ == "tool_plan_review" && e.planId == g.plans[k].id
             && Lower(e.decision) == "approved"
    requires |times| == 4 * |TaskSteps(desk.registry, task, found, agentMode)|
    ensures var end := Guide(desk, Final(desk.env, log + [e]), e.planId, times);
            && k < |end.plans| && NextAction(end.plans[k], end.proposals).Complete?
            && (AllDone(end.proposals, end.plans[k].steps) <==> !WaitsInVain(desk.registry, task, found))
  {
    var g, planned := Final(desk.env, log + [e]), TaskSteps(desk.registry, task, found, agentMode);
    PlannerShape(desk.registry, task, found, agentMode);
    ApprovalEstablishes(desk, log, k, e);
    ApprovedPlanKeepsId(desk, log, k, e);
    MeasureBound(planned);
    UnapprovedBound(g.proposals, planned);
    GuideCompletes(desk, g, k, times);
    var end := Guide(desk, g, e.planId, times);
    if WaitsInVain(desk.registry, task, found) {
      VainEnds(desk, g, k, task, found, agentMode, times);
    } else {
      SourcesStay(desk.registry, task, found, agentMode, end.plans[k].steps);
      NoPrematureCompletion(desk, end, k);
    }
  }

  lemma ApprovedPlanKeepsId(desk: Desk, log: seq<Event>, k: nat, e: Event)
    requires var g := Final(desk.env, log);
             && k < |g.plans| && FindPlan(g.plans, g.plans[k].id) == k && PlanPending(g.plans[k])
             && e.typ == "tool_plan_review" && e.planId == g.plans[k].id
             && Lower(e.decision) == "approved"
    ensures var g := Final(desk.env, log + [e]); k < |g.plans| && g.plans[k].id == e.planId
  {
    FinalOk(desk.env, log);
    ApprovalEffect(desk.env, Final(desk.env, log), e, k);
    assert (log + [e])[..|log|] == log;
  }

  lemma VainEnds(desk: Desk, g: Gov, k: nat, task: Text, found: Found, agentMode: bool, times: seq<Text>)
    requires WaitsInVain(desk.registry, task, found) && GuidedInv(desk, g, k) && NonFailing(desk)
    requires g.plans[k].steps == TaskSteps(desk.registry, task, found, agentMode)
    requires forall i :: 0 <= i < |g.plans[k].steps| ==> Untried(g.plans[k].steps[i])
    ensures var end := Guide(desk, g, g.plans[k].id, times);
            k < |end.plans| && !AllDone(end.proposals, end.plans[k].steps)
  {
    var steps, m := g.plans[k].steps, |ReadSteps(task, found)|;
    FewCandidates(task, found);
    SummaryIsPlanned(task, found);
    OnlySummaryWaits(desk.registry, task, found, agentMode, m);
    forall i | 0 <= i < |steps| ensures Progresses(steps[i], steps[i]) {}
    SummaryNeverDone(desk, g, k, task, found, agentMode, times);
  }

  /** Steps keep what makes them wait or be a source. */
  lemma SourcesStay(registry: Registry, task: Text, found: Found, agentMode: bool, steps: seq<PlanStep>)
    requires StepsProgress(TaskSteps(registry, task, found, agentMode), steps) && !WaitsInVain(registry, task, found)
    ensures forall i ::
              0 <= i < |steps| && Eligible(steps[i]) && Dependent(steps[i]) ==>
                  exists j :: 0 <= j < i && Eligible(steps[j])
  {
    PlannerSourcesIff(registry, task, found, agentMode);
    var planned := TaskSteps(registry, task, found, agentMode);
    forall i | 0 <= i < |steps| && Eligible(steps[i]) && Dependent(steps[i])
      ensures exists j :: 0 <= j < i && Eligible(steps[j])
    {
      assert Progresses(planned[i], steps[i]);
      var j :| 0 <= j < i && Eligible(planned[j]);
      assert Progresses(planned[j], steps[j]);
    }
  }
}
