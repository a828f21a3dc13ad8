/** Requesting execution: every approved step without a receipt gets one. */
module PlanExecuting {
  import opened Collections
  import opened Governance
  import opened GovernanceProofs
  import opened ToolArguments
  import opened PlanRunner
  import opened PlanInvariant
  import opened PlanProgress

  /** New receipts were issued; nothing else the runner looks at changed. */
  ghost predicate Issued(g: Gov, g': Gov) {
    g'.plans == g.plans && g'.proposals == g.proposals && g.receipts <= g'.receipts
  }

  /** The entry names an approved proposal and the receipt issued for it. */
  ghost predicate ExecutedFor(registry: Registry, g: Gov, q: ExecutedStep) {
    && q.proposalId.Some? && q.receiptId.Some? && q.receiptId.value != ""
    && (var i := FindProposal(g.proposals, q.proposalId.value);
        && i < |g.proposals| && g.proposals[i].review == Approved
        && g.proposals[i].meta.toolId.Some? && g.proposals[i].meta.toolId.value in registry
        && q.executionStatus == Some(ToolStatus(registry[g.proposals[i].meta.toolId.value]))
        && var r := FindReceipt(g.receipts, q.receiptId.value);
           r < |g.receipts| && Some(g.receipts[r].status) == q.executionStatus)
  }

  lemma ExecutedForStable(registry: Registry, a: Gov, b: Gov, q: ExecutedStep)
    requires ExecutedFor(registry, a, q) && Issued(a, b)
    ensures ExecutedFor(registry, b, q)
  {
    FindReceiptStable(a.receipts, b.receipts, q.receiptId.value);
  }

  lemma ReceiptHasSlot(env: Env, index: nat, proposalId: Text, status: Text, at: Option<Text>)
    ensures ReceiptSlot(index) <= ReceiptId(env, index, proposalId, status, at)
  {
  }

  lemma ReceiptsGrow(receipts: seq<Receipt>, r: Receipt)
    requires ReceiptsOk(receipts) && ReceiptSlot(|receipts|) <= r.id
    ensures ReceiptsOk(receipts + [r])
  {
    var more := receipts + [r];
    forall k ensures ReceiptOk(more, k) { assert ReceiptOk(receipts, k); }
  }

  lemma RequestReduces(env: Env, g: Gov, e: Event, i: nat)
    requires e.typ == "execution_request" && i < |g.proposals| && FindProposal(g.proposals, e.proposalId) == i
    ensures var r := BuildReceipt(env, |g.receipts|, g.proposals[i], EventTime(e), e.reason, e.dryRun, e.output);
            Reduce(env, g, e) == Ok(g.(receipts := g.receipts + [r], externalActionExecuted := false))
  {
  }

  /** An execution request for a stored proposal appends one receipt. */
  lemma RequestIssues(env: Env, g: Gov, e: Event, i: nat)
    requires GovOk(g) && ReceiptsOk(g.receipts) && e.typ == "execution_request"
    requires i < |g.proposals| && FindProposal(g.proposals, e.proposalId) == i
    ensures var out := Reduce(env, g, e);
            && out.Ok? && GovOk(out.value) && ReceiptsOk(out.value.receipts) && Issued(g, out.value)
            && |out.value.receipts| == |g.receipts| + 1
            && out.value.receipts[|g.receipts|].status == ExecutionStatus(g.proposals[i], e.output)
  {
    ReduceKeeps(env, g, e);
    RequestReduces(env, g, e, i);
    var r := BuildReceipt(env, |g.receipts|, g.proposals[i], EventTime(e), e.reason, e.dryRun, e.output);
    ReceiptHasSlot(env, |g.receipts|, g.proposals[i].id, r.status, EventTime(e));
    ReceiptsGrow(g.receipts, r);
  }

  /** Executors that return something make the receipt say what the tool's receipts say. */
  lemma ExecutionStatusIs(desk: Desk, g: Gov, p: Proposal, s: PlanStep, reason: Text, now: Text)
    requires NonFailing(desk) && RegistryOk(desk.registry) && p.review == Approved && Fits(desk.registry, p, s)
    ensures var event := ExecutionEvent(desk, g, p, reason, now);
            && event.Ok? && event.value.typ == "execution_request" && event.value.proposalId == p.id
            && ExecutionStatus(p, event.value.output) == ToolStatus(desk.registry[s.toolId.value])
  {
    var args := if p.meta.toolArguments.Some? then p.meta.toolArguments.value else map[];
    var result := desk.run(|g.receipts|, s.toolId.value, args);
    assert result.Ok? && result.value != map[];
  }

  lemma ExecuteOne(desk: Desk, g: Gov, s: PlanStep, reason: Text, now: Text)
    requires NonFailing(desk) && RegistryOk(desk.registry) && GovOk(g) && ReceiptsOk(g.receipts)
    requires QueuedOk(desk.registry, g.proposals, s) && ExecutionCandidate(s, g.proposals)
    ensures var p := g.proposals[FindProposal(g.proposals, s.proposalId.value)];
            var out := ExecuteStep(desk, g, s, p, reason, now);
            && out.Ok?
            && var (g', entry) := out.value;
               && GovOk(g') && ReceiptsOk(g'.receipts) && Issued(g, g')
               && entry.proposalId == s.proposalId && ExecutedFor(desk.registry, g', entry)
  {
    var i := FindProposal(g.proposals, s.proposalId.value);
    var p := g.proposals[i];
    ExecutionStatusIs(desk, g, p, s, reason, now);
    var event := ExecutionEvent(desk, g, p, reason, now).value;
    RequestIssues(desk.env, g, event, i);
    var g' := Emit(desk, g, event);
    ReceiptIdsDistinct(g'.receipts, |g.receipts|);
  }

  ghost predicate Recorded(registry: Registry, g: Gov, executed: seq<ExecutedStep>, x: int) {
    0 <= x < |executed| ==> ExecutedFor(registry, g, executed[x])
  }

  predicate HasExecuted(executed: seq<ExecutedStep>, id: Option<Text>) {
    executed != [] && (executed[|executed| - 1].proposalId == id || HasExecuted(executed[..|executed| - 1], id))
  }

  ghost predicate Executed(queue: seq<Proposal>, steps: seq<PlanStep>, n: nat, executed: seq<ExecutedStep>, i: int) {
    0 <= i < n && i < |steps| && ExecutionCandidate(steps[i], queue) ==> HasExecuted(executed, steps[i].proposalId)
  }

  ghost predicate Executions(registry: Registry, g: Gov, steps: seq<PlanStep>, n: nat, executed: seq<ExecutedStep>) {
    && (forall x {:trigger Recorded(registry, g, executed, x)} :: Recorded(registry, g, executed, x))
    && (forall i {:trigger Executed(g.proposals, steps, n, executed, i)} ::
          Executed(g.proposals, steps, n, executed, i))
  }

  lemma ExecutionsGrow(registry: Registry, g: Gov, g': Gov, steps: seq<PlanStep>, n: nat, executed: seq<ExecutedStep>,
                       q: ExecutedStep)
    requires Executions(registry, g, steps, n, executed) && Issued(g, g') && n < |steps|
    requires ExecutedFor(registry, g', q) && q.proposalId == steps[n].proposalId
    ensures Executions(registry, g', steps, n + 1, executed + [q])
  {
    var more, m := executed + [q], n + 1;
    assert more[..|executed|] == executed;
    forall x ensures Recorded(registry, g', more, x) {
      assert Recorded(registry, g, executed, x);
      if 0 <= x < |executed| { ExecutedForStable(registry, g, g', executed[x]); }
    }
    forall i ensures Executed(g'.proposals, steps, m, more, i) { assert Executed(g.proposals, steps, n, executed, i); }
  }

  lemma ExecutionsSkip(registry: Registry, g: Gov, steps: seq<PlanStep>, n: nat, executed: seq<ExecutedStep>)
    requires Executions(registry, g, steps, n, executed) && n < |steps| && !ExecutionCandidate(steps[n], g.proposals)
    ensures Executions(registry, g, steps, n + 1, executed)
  {
    var m := n + 1;
    forall i ensures Executed(g.proposals, steps, m, executed, i) {
      assert Executed(g.proposals, steps, n, executed, i);
    }
  }

  ghost predicate AllQueuedOk(registry: Registry, queue: seq<Proposal>, steps: seq<PlanStep>) {
    forall i :: 0 <= i < |steps| ==> QueuedOk(registry, queue, steps[i])
  }

  lemma NextExecuted(desk: Desk, g: Gov, plan: Plan, n: nat, reason: Text, now: Text, executed: seq<ExecutedStep>)
    requires NonFailing(desk) && RegistryOk(desk.registry) && GovOk(g) && ReceiptsOk(g.receipts)
    requires n < |plan.steps| && AllQueuedOk(desk.registry, g.proposals, plan.steps)
    requires Executions(desk.registry, g, plan.steps, n, executed)
    ensures var (g', more) := ExecuteNext(desk, g, plan, plan.steps[n], reason, now, executed);
            && more.Ok? && GovOk(g') && ReceiptsOk(g'.receipts) && Issued(g, g')
            && Executions(desk.registry, g', plan.steps, n + 1, more.value)
  {
    var s := plan.steps[n];
    if ExecutionCandidate(s, g.proposals) {
      var why := if reason == "" then "plan " + plan.id + " " + s.id else reason;
      ExecuteOne(desk, g, s, why, now);
      var p := g.proposals[FindProposal(g.proposals, s.proposalId.value)];
      var (g', entry) := ExecuteStep(desk, g, s, p, why, now).value;
      ExecutionsGrow(desk.registry, g, g', plan.steps, n, executed, entry);
    } else {
      ExecutionsSkip(desk.registry, g, plan.steps, n, executed);
    }
  }

  lemma NoExecutions(registry: Registry, g: Gov, steps: seq<PlanStep>)
    ensures Executions(registry, g, steps, 0, [])
  {
  }

  lemma {:induction false} ExecutingWorks(desk: Desk, g: Gov, plan: Plan, n: nat, reason: Text, now: Text)
    requires NonFailing(desk) && RegistryOk(desk.registry) && GovOk(g) && ReceiptsOk(g.receipts)
    requires n <= |plan.steps| && AllQueuedOk(desk.registry, g.proposals, plan.steps)
    ensures var (g', executed) := ExecuteProposals(desk, g, plan, plan.steps[..n], reason, now);
            && executed.Ok? && GovOk(g') && ReceiptsOk(g'.receipts) && Issued(g, g')
            && Executions(desk.registry, g', plan.steps, n, executed.value)
    decreases n
  {
    if n == 0 {
      NoExecutions(desk.registry, g, plan.steps);
    } else {
      assert plan.steps[..n][..n - 1] == plan.steps[..n - 1];
      ExecutingWorks(desk, g, plan, n - 1, reason, now);
      var (g1, executed) := ExecuteProposals(desk, g, plan, plan.steps[..n - 1], reason, now);
      NextExecuted(desk, g1, plan, n - 1, reason, now, executed.value);
    }
  }

  /** What the entries do to one step: nothing, or the last entry for its proposal decides. */
  lemma {:induction false} AllExecutedAt(steps: seq<PlanStep>, ids: seq<Text>, executed: seq<ExecutedStep>, i: nat)
    returns (x: nat)
    requires i < |steps|
    ensures x <= |executed| && (x < |executed| <==> HasExecuted(executed, steps[i].proposalId))
    ensures var s := AllExecuted(steps, ids, executed).0[i];
            if x < |executed| then executed[x].proposalId == steps[i].proposalId
                                   && s == steps[i].(receiptId := executed[x].receiptId,
                                                     executionStatus := executed[x].executionStatus)
            else s == steps[i]
    decreases |executed|
  {
    x := 0;
    if executed != [] {
      var n := |executed| - 1;
      x := AllExecutedAt(steps, ids, executed[..n], i);
      if executed[n].proposalId == steps[i].proposalId { x := n; }
      else if x == n { x := |executed|; }
    }
  }

  lemma StepExecutedOk(registry: Registry, g: Gov, g': Gov, steps: seq<PlanStep>, ids: seq<Text>,
                       executed: seq<ExecutedStep>, i: nat)
    requires i < |steps| && StepOk(registry, g, steps, i) && Issued(g, g')
             && Executions(registry, g', steps, |steps|, executed)
    ensures var s' := AllExecuted(steps, ids, executed).0[i];
            && QueuedOk(registry, g'.proposals, s') && ExecutedOk(registry, g'.proposals, g'.receipts, s')
            && Progresses(steps[i], s')
            && s'.boundArguments == steps[i].boundArguments
            && (ExecutionCandidate(steps[i], g.proposals) ==> s'.receiptId.Some? && Work(s') < Work(steps[i]))
  {
    var x := AllExecutedAt(steps, ids, executed, i);
    assert Executed(g'.proposals, steps, |steps|, executed, i);
    assert Recorded(registry, g', executed, x);
    var s := steps[i];
    if x == |executed| && s.receiptId.Some? {
      FindReceiptStable(g.receipts, g'.receipts, s.receiptId.value);
    }
  }

  lemma AllStepsExecuted(registry: Registry, g: Gov, g': Gov, steps: seq<PlanStep>, ids: seq<Text>,
                         executed: seq<ExecutedStep>)
    requires StepsOk(registry, g, steps) && Issued(g, g') && Executions(registry, g', steps, |steps|, executed)
    ensures var steps' := AllExecuted(steps, ids, executed).0;
            && StepsOk(registry, g', steps') && StepsProgress(steps, steps') && SameBound(steps, steps')
            && forall i :: 0 <= i < |steps| && ExecutionCandidate(steps[i], g.proposals) ==>
                 steps'[i].receiptId.Some? && Work(steps'[i]) < Work(steps[i])
  {
    var steps' := AllExecuted(steps, ids, executed).0;
    forall i | 0 <= i < |steps|
      ensures StepOk(registry, g', steps', i) && Progresses(steps[i], steps'[i])
              && steps'[i].boundArguments == steps[i].boundArguments
      ensures ExecutionCandidate(steps[i], g.proposals) ==>
                steps'[i].receiptId.Some? && Work(steps'[i]) < Work(steps[i])
    {
      assert StepOk(registry, g, steps, i);
      StepExecutedOk(registry, g, g', steps, ids, executed, i);
    }
    forall i ensures StepOk(registry, g', steps', i) {}
  }

  lemma ExecutionEventEffect(desk: Desk, g: Gov, k: nat, executed: seq<ExecutedStep>, now: Text)
    requires GovOk(g) && k < |g.plans| && g.plans[k].id != "" && FindPlan(g.plans, g.plans[k].id) == k
    requires g.plans[k].review == Some(Approved) && executed != []
    ensures var e := BLANK_EVENT.(typ := "tool_plan_execution_request", planId := g.plans[k].id,
                                  executed := executed, at := Some(now));
            var g' := Emit(desk, g, e);
            && GovOk(g') && g'.proposals == g.proposals && g'.receipts == g.receipts
            && k < |g'.plans| && Replaced(g, g', k, g'.plans[k])
            && g'.plans[k].steps == AllExecuted(g.plans[k].steps, g.plans[k].receiptIds, executed).0
  {
    var e := BLANK_EVENT.(typ := "tool_plan_execution_request", planId := g.plans[k].id, executed := executed,
                          at := Some(now));
    ReduceKeeps(desk.env, g, e);
    assert Reduce(desk.env, g, e) == Ok(ReducePlanExecution(g, e));
  }

  lemma ExecutedNoDecision(g: Gov, g1: Gov, g': Gov, k: nat)
    requires Issued(g, g1) && g'.proposals == g1.proposals && k < |g'.plans| && Replaced(g1, g', k, g'.plans[k])
    ensures NoDecision(g, g')
  {
    forall i ensures SameReview(g.proposals, g'.proposals, i) {}
  }

  /** Once the receipts are issued, recording them on the plan is progress. */
  lemma RecordingAdvances(desk: Desk, g: Gov, g1: Gov, k: nat, i: nat, executed: seq<ExecutedStep>, now: Text)
    requires PlanInv(desk, g, k) && GovOk(g1) && ReceiptsOk(g1.receipts) && Issued(g, g1)
    requires Executions(desk.registry, g1, g.plans[k].steps, |g.plans[k].steps|, executed) && executed != []
    requires i < |g.plans[k].steps| && ExecutionCandidate(g.plans[k].steps[i], g.proposals)
    ensures var e := BLANK_EVENT.(typ := "tool_plan_execution_request", planId := g.plans[k].id,
                                  executed := executed, at := Some(now));
            var g' := Emit(desk, g1, e);
            && Forward(desk, g, g', k) && g'.proposals == g.proposals && SameBound(g.plans[k].steps, g'.plans[k].steps)
            && forall j :: 0 <= j < |g.plans[k].steps| && ExecutionCandidate(g.plans[k].steps[j], g.proposals) ==>
                 g'.plans[k].steps[j].receiptId.Some?
  {
    var plan := g.plans[k];
    ExecutionEventEffect(desk, g1, k, executed, now);
    var e := BLANK_EVENT.(typ := "tool_plan_execution_request", planId := plan.id, executed := executed,
                          at := Some(now));
    var g' := Emit(desk, g1, e);
    AllStepsExecuted(desk.registry, g, g1, plan.steps, plan.receiptIds, executed);
    ExecutedStepsOk(desk, g, g1, g', k);
    ExecutedNoDecision(g, g1, g', k);
    MeasureDrops(plan.steps, g'.plans[k].steps, i);
  }

  lemma ExecutionAdvances(desk: Desk, g: Gov, k: nat, i: nat, reason: Text, now: Text)
    requires PlanInv(desk, g, k) && NonFailing(desk)
    requires i < |g.plans[k].steps| && ExecutionCandidate(g.plans[k].steps[i], g.proposals)
    ensures var (g', answer) := RequestExecution(desk, g, g.plans[k].id, reason, now);
            && answer == Done && Forward(desk, g, g', k) && g'.proposals == g.proposals
            && SameBound(g.plans[k].steps, g'.plans[k].steps)
            && forall j :: 0 <= j < |g.plans[k].steps| && ExecutionCandidate(g.plans[k].steps[j], g.proposals) ==>
                 g'.plans[k].steps[j].receiptId.Some?
  {
    ExecutingGives(desk, g, k, i, reason, now);
    var (g1, out) := ExecuteProposals(desk, g, g.plans[k], g.plans[k].steps, reason, now);
    RecordingAdvances(desk, g, g1, k, i, out.value, now);
    RequestEmits(desk, g, k, reason, now);
  }

  lemma RequestEmits(desk: Desk, g: Gov, k: nat, reason: Text, now: Text)
    requires k < |g.plans| && FindPlan(g.plans, g.plans[k].id) == k && g.plans[k].review == Some(Approved)
    requires var out := ExecuteProposals(desk, g, g.plans[k], g.plans[k].steps, reason, now).1;
             out.Ok? && out.value != []
    ensures var (g1, out) := ExecuteProposals(desk, g, g.plans[k], g.plans[k].steps, reason, now);
            var e := BLANK_EVENT.(typ := "tool_plan_execution_request", planId := g.plans[k].id,
                                  executed := out.value, at := Some(now));
            RequestExecution(desk, g, g.plans[k].id, reason, now) == (Emit(desk, g1, e), Done)
  {
  }

  /** What `ExecutingWorks` gives for all steps of the plan, one of which may run. */
  lemma ExecutingGives(desk: Desk, g: Gov, k: nat, i: nat, reason: Text, now: Text)
    requires PlanInv(desk, g, k) && NonFailing(desk)
    requires i < |g.plans[k].steps| && ExecutionCandidate(g.plans[k].steps[i], g.proposals)
    ensures var steps := g.plans[k].steps;
            var (g1, out) := ExecuteProposals(desk, g, g.plans[k], steps, reason, now);
            && out.Ok? && out.value != [] && GovOk(g1) && ReceiptsOk(g1.receipts) && Issued(g, g1)
            && Executions(desk.registry, g1, steps, |steps|, out.value)
  {
    var plan := g.plans[k];
    forall j | 0 <= j < |plan.steps| ensures QueuedOk(desk.registry, g.proposals, plan.steps[j]) {
      assert StepOk(desk.registry, g, plan.steps, j);
    }
    ExecutingWorks(desk, g, plan, |plan.steps|, reason, now);
    assert plan.steps[..|plan.steps|] == plan.steps;
    var (g1, out) := ExecuteProposals(desk, g, plan, plan.steps, reason, now);
    assert Executed(g1.proposals, plan.steps, |plan.steps|, out.value, i);
  }

  lemma ExecutedStepsOk(desk: Desk, g: Gov, g1: Gov, g': Gov, k: nat)
    requires PlanInv(desk, g, k) && Issued(g, g1) && k < |g'.plans| && Replaced(g1, g', k, g'.plans[k])
    requires GovOk(g') && ReceiptsOk(g1.receipts) && g'.proposals == g1.proposals && g'.receipts == g1.receipts
    requires StepsOk(desk.registry, g1, g'.plans[k].steps) && StepsProgress(g.plans[k].steps, g'.plans[k].steps)
    ensures PlanInv(desk, g', k)
    ensures forall i :: 0 <= i < |g.plans[k].steps| ==> Work(g'.plans[k].steps[i]) <= Work(g.plans[k].steps[i])
  {
    forall i ensures StepOk(desk.registry, g', g'.plans[k].steps, i) {
      assert StepOk(desk.registry, g1, g'.plans[k].steps, i);
    }
    PlanInvAgain(desk, g, g', k, g'.plans[k]);
    ProgressWorks(g.plans[k].steps, g'.plans[k].steps);
  }
}
