/** How the entries of one plan event add up: for each step and each proposal the last
    entry that names it counts, whatever the others say. */
module PlanEffects {
  import opened Collections
  import opened Governance
  import opened GovernanceEffects

  // ------------------------------------------------------------- queued steps

  /** Entry `k` is the last for the step. */
  ghost predicate LastQueued(queued: seq<QueuedStep>, k: int, stepId: Text) {
    && 0 <= k < |queued| && queued[k].stepId == stepId
    && forall m :: k < m < |queued| ==> queued[m].stepId != stepId
  }

  lemma {:induction false} QueuedLast(steps: seq<PlanStep>, ids: seq<Text>, queued: seq<QueuedStep>, i: nat, k: nat)
    requires i < |steps| && LastQueued(queued, k, steps[i].id)
    ensures var after := AllQueued(steps, ids, queued).0[i];
            after == steps[i].(proposalId := queued[k].proposalId, status := "proposal_queued")
    decreases |queued|
  {
    var n := |queued| - 1;
    if k < n {
      assert forall m :: k < m < n ==> queued[..n][m] == queued[m];
      QueuedLast(steps, ids, queued[..n], i, k);
    } else {
      QueuedKeepsRest(steps, ids, queued[..n], i);
    }
  }

  /** Whatever is queued, only the two fields change. */
  lemma {:induction false} QueuedKeepsRest(steps: seq<PlanStep>, ids: seq<Text>, queued: seq<QueuedStep>, i: nat)
    requires i < |steps|
    ensures var after := AllQueued(steps, ids, queued).0[i];
            after == steps[i].(proposalId := after.proposalId, status := after.status)
    decreases |queued|
  {
    if queued != [] { QueuedKeepsRest(steps, ids, queued[..|queued| - 1], i); }
  }

  lemma {:induction false} QueuedUnnamed(steps: seq<PlanStep>, ids: seq<Text>, queued: seq<QueuedStep>, i: nat)
    requires i < |steps| && forall k :: 0 <= k < |queued| ==> queued[k].stepId != steps[i].id
    ensures AllQueued(steps, ids, queued).0[i] == steps[i]
    decreases |queued|
  {
    if queued != [] { QueuedUnnamed(steps, ids, queued[..|queued| - 1], i); }
  }

  /** The ids kept on a plan: the old ones, then each new non-empty one where it is first
      named, never twice. */
  lemma {:induction false} QueuedIds(steps: seq<PlanStep>, ids: seq<Text>, queued: seq<QueuedStep>, id: Text)
    ensures var r := AllQueued(steps, ids, queued).1;
            && ids <= r && (Distinct(ids) ==> Distinct(r))
            && (id in r <==> id in ids || (id != "" && exists k ::
                    0 <= k < |queued| && queued[k].proposalId == Some(id)))
    decreases |queued|
  {
    if queued != [] {
      var n := |queued| - 1;
      QueuedIds(steps, ids, queued[..n], id);
      var before := AllQueued(steps, ids, queued[..n]).1;
      assert AllQueued(steps, ids, queued).1 == AddNew(before, queued[n].proposalId);
      assert forall k :: 0 <= k < n ==> queued[..n][k] == queued[k];
      AddedOnce(before, queued[n].proposalId);
    }
  }

  lemma AddedOnce(ids: seq<Text>, id: Option<Text>)
    ensures ids <= AddNew(ids, id) && (Distinct(ids) ==> Distinct(AddNew(ids, id)))
    ensures forall t :: t in AddNew(ids, id) <==> t in ids || (t != "" && id == Some(t))
  {
  }

  /** An approved plan takes the entries of a queue event; any other is left as it was. */
  lemma StepQueueExactly(env: Env, g: Gov, e: Event, i: nat)
    requires e.typ == "tool_plan_step_queue" && FirstPlan(g.plans, i, e.planId)
    ensures Reduce(env, g, e).Ok?
    ensures var g' := Reduce(env, g, e).value;
            if g.plans[i].review == Some(Approved) && e.planId != "" && e.queued != [] then
              && OnlyPlan(g, i, g') && g'.proposals == g.proposals
              && var (p, p') := (g.plans[i], g'.plans[i]);
              && (p'.steps, p'.materialized) == AllQueued(p.steps, p.materialized, e.queued)
              && p'.lastMaterializedAt == e.at
              && p'.status == (if p'.materialized == [] then p.status else "steps_queued")
              && p' == p.(steps := p'.steps, materialized := p'.materialized, status := p'.status,
                          lastMaterializedAt := p'.lastMaterializedAt)
            else g' == g
  {
    assert FindPlan(g.plans, e.planId) == i;
    assert Reduce(env, g, e) == Ok(ReducePlanEvent(g, e)) == Ok(ReduceStepQueue(g, e));
  }

  /** Of the plans only the `i`-th changes, and neither receipts nor mode do. */
  ghost predicate OnlyPlan(g: Gov, i: nat, g': Gov)
    requires i < |g.plans|
  {
    && |g'.plans| == |g.plans| && g'.plans == g.plans[i := g'.plans[i]]
    && g'.receipts == g.receipts && g'.agentMode == g.agentMode && !g'.externalActionExecuted
  }

  // ----------------------------------------------------------- executed steps

  ghost predicate LastExecuted(executed: seq<ExecutedStep>, k: int, proposalId: Option<Text>) {
    && 0 <= k < |executed| && executed[k].proposalId == proposalId
    && forall m :: k < m < |executed| ==> executed[m].proposalId != proposalId
  }

  lemma {:induction false} ExecutedLast(steps: seq<PlanStep>, ids: seq<Text>, executed: seq<ExecutedStep>, i: nat,
                                        k: nat)
    requires i < |steps| && LastExecuted(executed, k, steps[i].proposalId)
    ensures var after := AllExecuted(steps, ids, executed).0[i];
            after == steps[i].(receiptId := executed[k].receiptId, executionStatus := executed[k].executionStatus)
    decreases |executed|
  {
    var n := |executed| - 1;
    if k < n {
      assert forall m :: k < m < n ==> executed[..n][m] == executed[m];
      ExecutedLast(steps, ids, executed[..n], i, k);
    } else {
      ExecutedKeepsRest(steps, ids, executed[..n], i);
    }
  }

  lemma {:induction false} ExecutedKeepsRest(steps: seq<PlanStep>, ids: seq<Text>, executed: seq<ExecutedStep>, i: nat)
    requires i < |steps|
    ensures var after := AllExecuted(steps, ids, executed).0[i];
            after == steps[i].(receiptId := after.receiptId, executionStatus := after.executionStatus)
    decreases |executed|
  {
    if executed != [] { ExecutedKeepsRest(steps, ids, executed[..|executed| - 1], i); }
  }

  lemma {:induction false} ExecutedUnnamed(steps: seq<PlanStep>, ids: seq<Text>, executed: seq<ExecutedStep>, i: nat)
    requires i < |steps| && forall k :: 0 <= k < |executed| ==> executed[k].proposalId != steps[i].proposalId
    ensures AllExecuted(steps, ids, executed).0[i] == steps[i]
    decreases |executed|
  {
    if executed != [] { ExecutedUnnamed(steps, ids, executed[..|executed| - 1], i); }
  }

  lemma {:induction false} ExecutedIds(steps: seq<PlanStep>, ids: seq<Text>, executed: seq<ExecutedStep>, id: Text)
    ensures var r := AllExecuted(steps, ids, executed).1;
            && ids <= r && (Distinct(ids) ==> Distinct(r))
            && (id in r <==> id in ids || (id != "" && exists k ::
                    0 <= k < |executed| && executed[k].receiptId == Some(id)))
    decreases |executed|
  {
    if executed != [] {
      var n := |executed| - 1;
      ExecutedIds(steps, ids, executed[..n], id);
      var before := AllExecuted(steps, ids, executed[..n]).1;
      assert AllExecuted(steps, ids, executed).1 == AddNew(before, executed[n].receiptId);
      assert forall k :: 0 <= k < n ==> executed[..n][k] == executed[k];
      AddedOnce(before, executed[n].receiptId);
    }
  }

  lemma PlanExecutionExactly(env: Env, g: Gov, e: Event, i: nat)
    requires e.typ == "tool_plan_execution_request" && FirstPlan(g.plans, i, e.planId)
    ensures Reduce(env, g, e).Ok?
    ensures var g' := Reduce(env, g, e).value;
            if g.plans[i].review == Some(Approved) && e.planId != "" && e.executed != [] then
              && OnlyPlan(g, i, g') && g'.proposals == g.proposals
              && var (p, p') := (g.plans[i], g'.plans[i]);
              && (p'.steps, p'.receiptIds) == AllExecuted(p.steps, p.receiptIds, e.executed)
              && p'.lastRequestedAt == e.at
              && p'.status == (if p'.receiptIds == [] then p.status else "execution_requested")
              && p' == p.(steps := p'.steps, receiptIds := p'.receiptIds, status := p'.status,
                          lastRequestedAt := p'.lastRequestedAt)
            else g' == g
  {
    assert FindPlan(g.plans, e.planId) == i;
    assert Reduce(env, g, e) == Ok(ReducePlanEvent(g, e)) == Ok(ReducePlanExecution(g, e));
  }

  // ---------------------------------------------------------------- bindings

  ghost predicate LastBinding(bindings: seq<Binding>, k: int, proposalId: Text) {
    && 0 <= k < |bindings| && bindings[k].proposalId == proposalId
    && forall m :: k < m < |bindings| ==> bindings[m].proposalId != proposalId
  }

  /** A binding event changes arguments and binding of a proposal, nothing else. */
  lemma {:induction false} BoundKeepsRest(q: seq<Proposal>, steps: seq<PlanStep>, count: nat, bindings: seq<Binding>,
                                          at: Option<Text>, i: nat)
    requires i < |q|
    ensures var p := AllBound(q, steps, count, bindings, at).0[i];
            p == q[i].(meta := q[i].meta.(toolArguments := p.meta.toolArguments), binding := p.binding)
    ensures q[i].review != Pending ==> AllBound(q, steps, count, bindings, at).0[i] == q[i]
    decreases |bindings|
  {
    if bindings != [] { BoundKeepsRest(q, steps, count, bindings[..|bindings| - 1], at, i); }
  }

  lemma SameFirst(q: seq<Proposal>, steps: seq<PlanStep>, count: nat, bindings: seq<Binding>, at: Option<Text>,
                  id: Text)
    ensures FindProposal(AllBound(q, steps, count, bindings, at).0, id) == FindProposal(q, id)
  {
    var r := AllBound(q, steps, count, bindings, at).0;
    forall j | 0 <= j < |q| ensures r[j].id == q[j].id && r[j].review == q[j].review {
      BoundKeepsRest(q, steps, count, bindings, at, j);
    }
    SameIdsFound(q, r, id);
  }

  lemma SameIdsFound(q: seq<Proposal>, r: seq<Proposal>, id: Text)
    requires |q| == |r| && forall j :: 0 <= j < |q| ==> r[j].id == q[j].id
    ensures FindProposal(r, id) == FindProposal(q, id)
  {
  }

  /** The last binding writes to its own proposal, if it is pending, and to no other. */
  lemma BoundOnce(q: seq<Proposal>, steps: seq<PlanStep>, count: nat, bindings: seq<Binding>, at: Option<Text>, i: nat)
    requires bindings != [] && i < |q|
    ensures var n := |bindings| - 1;
            var (b, p') := (bindings[n], AllBound(q, steps, count, bindings, at).0[i]);
            if FirstProposal(q, i, b.proposalId) && q[i].review == Pending then GivenBy(q[i], b, at, p')
            else p' == AllBound(q, steps, count, bindings[..n], at).0[i]
  {
    var n := |bindings| - 1;
    SameFirst(q, steps, count, bindings[..n], at, bindings[n].proposalId);
    BoundKeepsRest(q, steps, count, bindings[..n], at, i);
  }

  /** A pending proposal takes the arguments of the last binding that names it. */
  lemma {:induction false} BoundLast(q: seq<Proposal>, steps: seq<PlanStep>, count: nat, bindings: seq<Binding>,
                                     at: Option<Text>, i: nat, k: nat, b: Binding)
    requires LastBinding(bindings, k, b.proposalId) && bindings[k] == b
    requires FirstProposal(q, i, b.proposalId) && q[i].review == Pending
    ensures GivenBy(q[i], b, at, AllBound(q, steps, count, bindings, at).0[i])
    decreases |bindings|
  {
    var n := |bindings| - 1;
    BoundOnce(q, steps, count, bindings, at, i);
    if k < n {
      assert LastBinding(bindings[..n], k, b.proposalId) by {
        assert forall m :: k < m < n ==> bindings[..n][m] == bindings[m];
      }
      BoundLast(q, steps, count, bindings[..n], at, i, k, b);
    }
  }

  /** `p'` is the proposal with the arguments and the origin that the binding gives it. */
  ghost predicate GivenBy(p: Proposal, b: Binding, at: Option<Text>, p': Proposal) {
    && p'.meta.toolArguments == Some(b.arguments)
    && p'.binding == Some(ResultBinding(b.sourceStepId, b.sourceReceiptId, b.sourceOutputHash, at))
    && p' == p.(meta := p.meta.(toolArguments := p'.meta.toolArguments), binding := p'.binding)
  }

  /** A proposal that is named by no binding, or is not the one found by its id, stays. */
  lemma {:induction false} BoundUnnamed(q: seq<Proposal>, steps: seq<PlanStep>, count: nat, bindings: seq<Binding>,
                                        at: Option<Text>, i: nat)
    requires i < |q|
    requires (forall k :: 0 <= k < |bindings| ==> bindings[k].proposalId != q[i].id) || !FirstProposal(q, i, q[i].id)
    ensures AllBound(q, steps, count, bindings, at).0[i] == q[i]
    decreases |bindings|
  {
    if bindings != [] {
      var n := |bindings| - 1;
      BoundUnnamed(q, steps, count, bindings[..n], at, i);
      SameFirst(q, steps, count, bindings[..n], at, bindings[n].proposalId);
    }
  }

  lemma {:induction false} BoundStepKeepsRest(q: seq<Proposal>, steps: seq<PlanStep>, count: nat,
                                              bindings: seq<Binding>, at: Option<Text>, j: nat)
    requires j < |steps|
    ensures var s := AllBound(q, steps, count, bindings, at).1[j];
            s == steps[j].(boundArguments := s.boundArguments, binding := s.binding, status := s.status)
    decreases |bindings|
  {
    if bindings != [] { BoundStepKeepsRest(q, steps, count, bindings[..|bindings| - 1], at, j); }
  }

  /** A binding takes effect when the proposal found by its id is pending. */
  ghost predicate Takes(q: seq<Proposal>, b: Binding) {
    exists i :: FirstProposal(q, i, b.proposalId) && q[i].review == Pending
  }

  lemma TakesFound(q: seq<Proposal>, steps: seq<PlanStep>, count: nat, bindings: seq<Binding>, at: Option<Text>,
                   b: Binding)
    ensures var r := AllBound(q, steps, count, bindings, at).0;
            var i := FindProposal(r, b.proposalId);
            Takes(q, b) <==> i < |r| && r[i].review == Pending
  {
    SameFirst(q, steps, count, bindings, at, b.proposalId);
    var i := FindProposal(q, b.proposalId);
    if i < |q| {
      BoundKeepsRest(q, steps, count, bindings, at, i);
      assert FirstProposal(q, i, b.proposalId);
    }
  }

  lemma BoundStepOnce(q: seq<Proposal>, steps: seq<PlanStep>, count: nat, bindings: seq<Binding>, at: Option<Text>,
                      j: nat)
    requires bindings != [] && j < |steps|
    ensures var n := |bindings| - 1;
            var (b, s') := (bindings[n], AllBound(q, steps, count, bindings, at).1[j]);
            if Takes(q, b) && steps[j].proposalId == Some(b.proposalId) then StepGivenBy(steps[j], b, at, s')
            else s' == AllBound(q, steps, count, bindings[..n], at).1[j]
  {
    var n := |bindings| - 1;
    TakesFound(q, steps, count, bindings[..n], at, bindings[n]);
    BoundStepKeepsRest(q, steps, count, bindings[..n], at, j);
  }

  lemma {:induction false} StepKeptAfter(q: seq<Proposal>, steps: seq<PlanStep>, count: nat, bindings: seq<Binding>,
                                         at: Option<Text>, j: nat, m: nat)
    requires j < |steps| && m <= |bindings|
    requires forall k :: m <= k < |bindings| ==> steps[j].proposalId != Some(bindings[k].proposalId)
    ensures AllBound(q, steps, count, bindings, at).1[j] == AllBound(q, steps, count, bindings[..m], at).1[j]
    decreases |bindings|
  {
    if m == |bindings| {
      assert bindings[..m] == bindings;
    } else {
      var n := |bindings| - 1;
      StepKeptAfter(q, steps, count, bindings[..n], at, j, m);
      BoundStepOnce(q, steps, count, bindings, at, j);
      assert bindings[..n][..m] == bindings[..m];
    }
  }

  /** A step of a pending proposal takes what the last binding for that proposal gives. */
  lemma BoundStepLast(q: seq<Proposal>, steps: seq<PlanStep>, count: nat, bindings: seq<Binding>, at: Option<Text>,
                      j: nat, k: nat)
    requires k < |bindings| && Takes(q, bindings[k]) && LastBinding(bindings, k, bindings[k].proposalId)
    requires j < |steps| && steps[j].proposalId == Some(bindings[k].proposalId)
    ensures StepGivenBy(steps[j], bindings[k], at, AllBound(q, steps, count, bindings, at).1[j])
  {
    var upTo := bindings[..k + 1];
    assert upTo[k] == bindings[k];
    BoundStepOnce(q, steps, count, upTo, at, j);
    StepKeptAfter(q, steps, count, bindings, at, j, k + 1);
  }

  ghost predicate StepGivenBy(s: PlanStep, b: Binding, at: Option<Text>, s': PlanStep) {
    && s'.boundArguments == Some(b.arguments) && s'.status == "result_bound"
    && s'.binding == Some(ResultBinding(b.sourceStepId, b.sourceReceiptId, b.sourceOutputHash, at))
    && s' == s.(boundArguments := s'.boundArguments, binding := s'.binding, status := s'.status)
  }

  lemma {:induction false} BoundStepUnnamed(q: seq<Proposal>, steps: seq<PlanStep>, count: nat,
                                            bindings: seq<Binding>, at: Option<Text>, j: nat)
    requires j < |steps|
    requires forall k :: 0 <= k < |bindings| && Takes(q, bindings[k]) ==>
                           steps[j].proposalId != Some(bindings[k].proposalId)
    ensures AllBound(q, steps, count, bindings, at).1[j] == steps[j]
    decreases |bindings|
  {
    if bindings != [] {
      var n := |bindings| - 1;
      BoundStepUnnamed(q, steps, count, bindings[..n], at, j);
      BoundStepOnce(q, steps, count, bindings, at, j);
    }
  }

  /** The places a run of bindings writes to: which binding, which step. */
  ghost function Writes(q: seq<Proposal>, steps: seq<PlanStep>, bindings: seq<Binding>): set<(int, int)> {
    set k, j | 0 <= k < |bindings| && 0 <= j < |steps| && Takes(q, bindings[k])
               && steps[j].proposalId == Some(bindings[k].proposalId) :: (k, j)
  }

  ghost function WritesOf(k: int, steps: seq<PlanStep>, id: Text): set<(int, int)> {
    set j | 0 <= j < |steps| && steps[j].proposalId == Some(id) :: (k, j)
  }

  lemma {:induction false} StepsOfCounts(k: int, steps: seq<PlanStep>, id: Text)
    ensures StepsOf(steps, id) == |WritesOf(k, steps, id)|
  {
    if steps == [] {
      assert WritesOf(k, steps, id) == {};
    } else {
      var n := |steps| - 1;
      StepsOfCounts(k, steps[..n], id);
      assert WritesOf(k, steps, id)
          == WritesOf(k, steps[..n], id) + if steps[n].proposalId == Some(id) then {(k, n)} else {};
      assert (k, n) !in WritesOf(k, steps[..n], id);
    }
  }

  lemma {:induction false} SameStepsOf(a: seq<PlanStep>, b: seq<PlanStep>, id: Text)
    requires |a| == |b| && forall j :: 0 <= j < |a| ==> a[j].proposalId == b[j].proposalId
    ensures StepsOf(a, id) == StepsOf(b, id)
  {
    if a != [] { SameStepsOf(a[..|a| - 1], b[..|b| - 1], id); }
  }

  /** The count kept on the plan grows by one for each step each binding writes to. */
  lemma {:induction false} BoundCount(q: seq<Proposal>, steps: seq<PlanStep>, count: nat, bindings: seq<Binding>,
                                      at: Option<Text>)
    ensures AllBound(q, steps, count, bindings, at).2 == count + |Writes(q, steps, bindings)|
    decreases |bindings|
  {
    if bindings == [] {
      assert Writes(q, steps, bindings) == {};
    } else {
      var n := |bindings| - 1;
      var b := bindings[n];
      BoundCount(q, steps, count, bindings[..n], at);
      TakesFound(q, steps, count, bindings[..n], at, b);
      var s := AllBound(q, steps, count, bindings[..n], at).1;
      forall j | 0 <= j < |steps| ensures s[j].proposalId == steps[j].proposalId {
        BoundStepKeepsRest(q, steps, count, bindings[..n], at, j);
      }
      SameStepsOf(s, steps, b.proposalId);
      StepsOfCounts(n, steps, b.proposalId);
      WritesSplit(q, steps, bindings);
    }
  }

  lemma WritesSplit(q: seq<Proposal>, steps: seq<PlanStep>, bindings: seq<Binding>)
    requires bindings != []
    ensures var n := |bindings| - 1;
            |Writes(q, steps, bindings)|
            == |Writes(q, steps, bindings[..n])|
               + if Takes(q, bindings[n]) then |WritesOf(n, steps, bindings[n].proposalId)| else 0
  {
    var n := |bindings| - 1;
    var last := if Takes(q, bindings[n]) then WritesOf(n, steps, bindings[n].proposalId) else {};
    var rest := Writes(q, steps, bindings[..n]);
    assert Writes(q, steps, bindings) == rest + last;
    assert rest !! last;
  }

  /** The first plan with the id named takes the bindings, whatever its review says. */
  lemma BindingExactly(env: Env, g: Gov, e: Event, i: nat)
    requires e.typ == "tool_plan_result_binding" && FirstPlan(g.plans, i, e.planId)
    ensures Reduce(env, g, e).Ok?
    ensures var g' := Reduce(env, g, e).value;
            if e.planId != "" && e.bindings != [] then
              && OnlyPlan(g, i, g')
              && var (p, p') := (g.plans[i], g'.plans[i]);
              && (g'.proposals, p'.steps, p'.boundCount)
                 == AllBound(g.proposals, p.steps, p.boundCount, e.bindings, e.at)
              && p'.lastBoundAt == e.at
              && p' == p.(steps := p'.steps, boundCount := p'.boundCount, lastBoundAt := p'.lastBoundAt)
            else g' == g
  {
    assert FindPlan(g.plans, e.planId) == i;
    assert Reduce(env, g, e) == Ok(ReduceOther(env, g, e)) == Ok(ReduceBinding(g, e));
  }

  /** A plan event that names no plan changes nothing. */
  lemma NoSuchPlan(env: Env, g: Gov, e: Event)
    requires e.typ in {"tool_plan_review", "tool_plan_step_queue", "tool_plan_execution_request",
                       "tool_plan_result_binding"}
    requires forall k :: 0 <= k < |g.plans| ==> g.plans[k].id != e.planId
    ensures Reduce(env, g, e) == Ok(g)
  {
    assert FindPlan(g.plans, e.planId) == |g.plans|;
  }
}
