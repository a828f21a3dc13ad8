/** The guided plan runner: what the next step for a plan is, and the handlers that
    take it. */
module PlanRunner {
  import opened Collections
  import opened Governance
  import opened ToolArguments

  datatype Ready = Ready(stepId: Text, proposalId: Text)

  datatype PlanAction =
    | NeedsPlanReview
    | PlanDenied
    | CanQueue
    | CanBind(ready: seq<Ready>)
    | NeedsStepReview(waitingOn: seq<Ready>)
    | CanExecute(ready: seq<Ready>)
    | BlockedByDenied(waitingOn: seq<Ready>)
    | Complete

  predicate Eligible(s: PlanStep) {
    Truthy(s.toolId) && s.status !in {"blocked_no_tool", "blocked_invalid_arguments"}
  }

  function EligibleSteps(steps: seq<PlanStep>): seq<PlanStep> {
    if steps == [] then []
    else if Eligible(steps[|steps| - 1]) then EligibleSteps(steps[..|steps| - 1]) + [steps[|steps| - 1]]
    else EligibleSteps(steps[..|steps| - 1])
  }

  /** The dictionary from id to proposal: a later entry replaces an earlier one. */
  function Lookup(queue: seq<Proposal>, id: Option<Text>): Option<Proposal> {
    if queue == [] then None
    else if Some(queue[|queue| - 1].id) == id then Some(queue[|queue| - 1])
    else Lookup(queue[..|queue| - 1], id)
  }

  function TextArgument(args: Args): Text {
    if "text" !in args then ""
    else match args["text"]
         case Str(s) => s
         case List(t) => t
         case Object(t) => t
         case _ => ""
  }

  const MARKER := "<requires approved"

  predicate Placeholder(s: PlanStep) {
    Contains(TextArgument(s.arguments), MARKER)
  }

  predicate ProposalPlaceholder(p: Proposal) {
    p.meta.toolArguments.Some? && Contains(TextArgument(p.meta.toolArguments.value), MARKER)
  }

  predicate Bound(s: PlanStep) {
    s.boundArguments.Some? && s.boundArguments.value != map[]
  }

  predicate UnboundDependent(s: PlanStep, p: Proposal) {
    s.toolId == Some("text.summarize") && !Bound(s) && (Placeholder(s) || ProposalPlaceholder(p))
  }

  const GOOD_STATUS := {"executed_read_only", "dry_run_only_not_executed"}

  predicate HasRun(s: PlanStep) {
    Truthy(s.receiptId) || (s.executionStatus.Some? && s.executionStatus.value in GOOD_STATUS)
  }

  /** Is there a step before `target` that has run?  The search gives up at the first
      step whose id is not below the target's. */
  predicate HasPrior(target: PlanStep, steps: seq<PlanStep>) {
    steps != [] && Before(steps[0].id, target.id) && (HasRun(steps[0]) || HasPrior(target, steps[1..]))
  }

  predicate Bindable(s: PlanStep, queue: seq<Proposal>, eligible: seq<PlanStep>) {
    var p := Lookup(queue, s.proposalId);
    p.Some? && p.value.review == Pending && UnboundDependent(s, p.value) && HasPrior(s, eligible)
  }

  predicate AwaitsReview(s: PlanStep, queue: seq<Proposal>) {
    var p := Lookup(queue, s.proposalId);
    p.Some? && p.value.review == Pending && !UnboundDependent(s, p.value)
  }

  predicate Executable(s: PlanStep, queue: seq<Proposal>) {
    var p := Lookup(queue, s.proposalId);
    p.Some? && p.value.review == Approved && !Truthy(s.receiptId)
  }

  predicate DeniedStep(s: PlanStep, queue: seq<Proposal>) {
    var p := Lookup(queue, s.proposalId);
    p.Some? && p.value.review == Denied
  }

  datatype Test = IsBindable | IsAwaiting | IsExecutable | IsDenied

  predicate Passes(test: Test, s: PlanStep, queue: seq<Proposal>, eligible: seq<PlanStep>) {
    match test
    case IsBindable => Bindable(s, queue, eligible)
    case IsAwaiting => AwaitsReview(s, queue)
    case IsExecutable => Executable(s, queue)
    case IsDenied => DeniedStep(s, queue)
  }

  function ReadyOf(s: PlanStep): Ready {
    Ready(s.id, if s.proposalId.Some? then s.proposalId.value else "")
  }

  function Select(test: Test, steps: seq<PlanStep>, queue: seq<Proposal>, eligible: seq<PlanStep>): seq<Ready> {
    if steps == [] then []
    else
      var rest := Select(test, steps[..|steps| - 1], queue, eligible);
      if Passes(test, steps[|steps| - 1], queue, eligible) then rest + [ReadyOf(steps[|steps| - 1])] else rest
  }

  predicate AnyUnqueued(steps: seq<PlanStep>) {
    exists i :: 0 <= i < |steps| && !Truthy(steps[i].proposalId)
  }

  function NextAction(plan: Plan, queue: seq<Proposal>): PlanAction {
    if PlanPending(plan) then NeedsPlanReview
    else if plan.review == Some(Denied) then PlanDenied
    else
      var eligible := EligibleSteps(plan.steps);
      if AnyUnqueued(eligible) then CanQueue
      else
        var bindable := Select(IsBindable, eligible, queue, eligible);
        var awaiting := Select(IsAwaiting, eligible, queue, eligible);
        var executable := Select(IsExecutable, eligible, queue, eligible);
        var denied := Select(IsDenied, eligible, queue, eligible);
        if bindable != [] then CanBind(bindable)
        else if awaiting != [] then NeedsStepReview(awaiting)
        else if executable != [] then CanExecute(executable)
        else if denied != [] then BlockedByDenied(denied)
        else Complete
  }

  // ---------------------------------------------------------- in-place form

  method HasPriorExecutedStep(target: PlanStep, steps: seq<PlanStep>) returns (found: bool)
    ensures found == HasPrior(target, steps)
  {
    for i := 0 to |steps|
      invariant HasPrior(target, steps) == HasPrior(target, steps[i..])
    {
      assert steps[i..][1..] == steps[i + 1..];
      if !Before(steps[i].id, target.id) { return false; }
      if HasRun(steps[i]) { return true; }
    }
    return false;
  }

  method CollectEligible(steps: seq<PlanStep>) returns (eligible: seq<PlanStep>)
    ensures eligible == EligibleSteps(steps)
  {
    eligible := [];
    for i := 0 to |steps|
      invariant eligible == EligibleSteps(steps[..i])
    {
      assert steps[..i + 1][..i] == steps[..i];
      if Eligible(steps[i]) { eligible := eligible + [steps[i]]; }
    }
    assert steps[..|steps|] == steps;
  }

  method Collect(test: Test, eligible: seq<PlanStep>, queue: seq<Proposal>) returns (found: seq<Ready>)
    ensures found == Select(test, eligible, queue, eligible)
  {
    found := [];
    for i := 0 to |eligible|
      invariant found == Select(test, eligible[..i], queue, eligible)
    {
      assert eligible[..i + 1][..i] == eligible[..i];
      if Passes(test, eligible[i], queue, eligible) { found := found + [ReadyOf(eligible[i])]; }
    }
    assert eligible[..|eligible|] == eligible;
  }

  method NextPlanAction(plan: Plan, queue: seq<Proposal>) returns (action: PlanAction)
    ensures action == NextAction(plan, queue)
  {
    if PlanPending(plan) { return NeedsPlanReview; }
    if plan.review == Some(Denied) { return PlanDenied; }
    var eligible := CollectEligible(plan.steps);
    for i := 0 to |eligible|
      invariant forall k :: 0 <= k < i ==> Truthy(eligible[k].proposalId)
    {
      if !Truthy(eligible[i].proposalId) { return CanQueue; }
    }
    var bindable := Collect(IsBindable, eligible, queue);
    if bindable != [] { return CanBind(bindable); }
    var awaiting := Collect(IsAwaiting, eligible, queue);
    if awaiting != [] { return NeedsStepReview(awaiting); }
    var executable := Collect(IsExecutable, eligible, queue);
    if executable != [] { return CanExecute(executable); }
    var denied := Collect(IsDenied, eligible, queue);
    if denied != [] { return BlockedByDenied(denied); }
    return Complete;
  }

  // ---------------------------------------------------------------- handlers

  /** What the handlers call: the tool registry, the executors, and the text that sums up
      a receipt.  `run` gets the number of receipts so far, so two calls with the same
      arguments may differ. */
  datatype Desk = Desk(env: Env, registry: Registry, run: (nat, Text, Args) -> Outcome<Output, ()>,
                       summary: Receipt -> Text)

  /** Reduce an event the handlers built; these never raise. */
  function Emit(desk: Desk, g: Gov, e: Event): Gov {
    var out := Reduce(desk.env, g, e);
    if out.Ok? then out.value else g
  }

  function ActionClassOf(tool: Tool): Text {
    if tool.id == "memory.propose" then "propose_memory"
    else if tool.sideEffect == "external_mutation" then "external_action"
    else if tool.sideEffect in {"read_only", "local_mutation"} then "modify_local"
    else "observe"
  }

  /** What a proposal for the tool gives as reasons. */
  function ToolReasons(tool: Tool, agentMode: bool): seq<Text> {
    ["tool risk=" + tool.risk, "side_effect=" + tool.sideEffect, "permission=" + tool.mode]
    + if agentMode then ["Agent Mode can prepare tool proposals only"] else []
  }

  function ProposalEvent(registry: Registry, toolId: Text, args: Args, reason: Text,
                         agentMode: bool): Outcome<Event, ToolError> {
    var checked := Validate(registry, toolId, args);
    if checked.Raised? then Raised(checked.error)
    else
      var tool := registry[toolId];
      Ok(BLANK_EVENT.(typ := "user_intent", intent := if reason == "" then "tool proposal: " + toolId else reason,
                actionClass := Some(ActionClassOf(tool)), policy := Some(Policy(None, ToolReasons(tool, agentMode))),
                meta := Meta(Some(toolId), Some(checked.value.arguments), Some(tool.risk), Some(tool.sideEffect),
                             tool.mode == "dry_run")))
  }

  datatype Answer = NotFound | Conflict | BadRequest | Done | Nothing

  predicate QueueCandidate(s: PlanStep) {
    Eligible(s) && !Truthy(s.proposalId)
  }

  function StepReason(plan: Plan, s: PlanStep, prefix: Text): Text {
    prefix + "plan " + plan.id + " " + s.id + ": " + s.reason
  }

  function QueueNext(desk: Desk, g: Gov, plan: Plan, s: PlanStep, prefix: Text,
                     queued: seq<QueuedStep>): (Gov, Outcome<seq<QueuedStep>, ToolError>) {
    if !QueueCandidate(s) then (g, Ok(queued))
    else
      var event := ProposalEvent(desk.registry, s.toolId.value, s.arguments, StepReason(plan, s, prefix), g.agentMode);
      if event.Raised? then (g, Raised(event.error))
      else
        var g' := Emit(desk, g, event.value);
        var id := if g'.proposals == [] then None else Some(g'.proposals[|g'.proposals| - 1].id);
        (g', Ok(queued + [QueuedStep(s.id, id)]))
  }

  /** Queue a proposal for each candidate among the first steps, until one is refused. */
  function QueueProposals(desk: Desk, g: Gov, plan: Plan, steps: seq<PlanStep>,
                          prefix: Text): (Gov, Outcome<seq<QueuedStep>, ToolError>) {
    if steps == [] then (g, Ok([]))
    else
      var (g1, queued) := QueueProposals(desk, g, plan, steps[..|steps| - 1], prefix);
      if queued.Raised? then (g1, queued) else QueueNext(desk, g1, plan, steps[|steps| - 1], prefix, queued.value)
  }

  function QueueSteps(desk: Desk, g: Gov, planId: Text, prefix: Text, now: Text): (Gov, Answer) {
    var i := FindPlan(g.plans, planId);
    if i == |g.plans| then (g, NotFound)
    else if g.plans[i].review != Some(Approved) then (g, Conflict)
    else
      var (g1, queued) := QueueProposals(desk, g, g.plans[i], g.plans[i].steps, prefix);
      if queued.Raised? then (g1, BadRequest)
      else if queued.value == [] then (g1, Nothing)
      else (Emit(desk, g1,
                 BLANK_EVENT.(typ := "tool_plan_step_queue", planId := planId, queued := queued.value,
                              at := Some(now))), Done)
  }

  /** The execution request for a proposal: approved read-only and dry-run tools are run. */
  function ExecutionEvent(desk: Desk, g: Gov, p: Proposal, reason: Text, now: Text): Outcome<Event, ()> {
    var event := BLANK_EVENT.(typ := "execution_request", proposalId := p.id, reason := Some(reason), at := Some(now));
    var args := if p.meta.toolArguments.Some? then p.meta.toolArguments.value else map[];
    if p.review == Approved && p.meta.toolId.Some? && p.meta.toolId.value in READ_ONLY_TOOLS then
      var result := desk.run(|g.receipts|, p.meta.toolId.value, args);
      if result.Raised? then Raised(())
        else Ok(event.(output := if result.value == map[] then None else Some(result.value)))
    else if p.review == Approved && p.meta.dryRunAvailable && p.meta.sideEffectClass == Some("none") then
      if p.meta.toolId.None? then Raised(()) else
      var result := desk.run(|g.receipts|, p.meta.toolId.value, args);
      if result.Raised? then Raised(())
        else Ok(event.(dryRun := if result.value == map[] then None else Some(result.value)))
    else Ok(event)
  }

  predicate ExecutionCandidate(s: PlanStep, queue: seq<Proposal>) {
    && Truthy(s.proposalId) && !Truthy(s.receiptId)
    && var i := FindProposal(queue, s.proposalId.value);
       i < |queue| && queue[i].review == Approved
  }

  function ExecuteStep(desk: Desk, g: Gov, s: PlanStep, p: Proposal, reason: Text,
                       now: Text): Outcome<(Gov, ExecutedStep), ()> {
    var event := ExecutionEvent(desk, g, p, reason, now);
    if event.Raised? then Raised(())
    else
      var g' := Emit(desk, g, event.value);
      if g'.receipts == [] then Ok((g', ExecutedStep(s.proposalId, None, None)))
      else
        var receipt := g'.receipts[|g'.receipts| - 1];
        Ok((g', ExecutedStep(s.proposalId, Some(receipt.id), Some(receipt.status))))
  }

  function ExecuteNext(desk: Desk, g: Gov, plan: Plan, s: PlanStep, reason: Text, now: Text,
                       executed: seq<ExecutedStep>): (Gov, Outcome<seq<ExecutedStep>, ()>) {
    if !ExecutionCandidate(s, g.proposals) then (g, Ok(executed))
    else
      var p := g.proposals[FindProposal(g.proposals, s.proposalId.value)];
      var out := ExecuteStep(desk, g, s, p, if reason == "" then "plan " + plan.id + " " + s.id else reason, now);
      if out.Raised? then (g, Raised(())) else (out.value.0, Ok(executed + [out.value.1]))
  }

  /** Request execution for each approved step among the first ones, until an executor fails. */
  function ExecuteProposals(desk: Desk, g: Gov, plan: Plan, steps: seq<PlanStep>, reason: Text,
                            now: Text): (Gov, Outcome<seq<ExecutedStep>, ()>) {
    if steps == [] then (g, Ok([]))
    else
      var (g1, executed) := ExecuteProposals(desk, g, plan, steps[..|steps| - 1], reason, now);
      if executed.Raised? then (g1, executed)
        else ExecuteNext(desk, g1, plan, steps[|steps| - 1], reason, now, executed.value)
  }

  function RequestExecution(desk: Desk, g: Gov, planId: Text, reason: Text, now: Text): (Gov, Answer) {
    var i := FindPlan(g.plans, planId);
    if i == |g.plans| then (g, NotFound)
    else if g.plans[i].review != Some(Approved) then (g, Conflict)
    else
      var (g1, executed) := ExecuteProposals(desk, g, g.plans[i], g.plans[i].steps, reason, now);
      if executed.Raised? then (g1, BadRequest)
      else if executed.value == [] then (g1, Nothing)
      else (Emit(desk, g1,
                 BLANK_EVENT.(typ := "tool_plan_execution_request", planId := planId, executed := executed.value,
                              at := Some(now))), Done)
  }

  function FindReceipt(receipts: seq<Receipt>, id: Text): (i: nat)
    ensures i <= |receipts|
    ensures i < |receipts| ==> receipts[i].id == id
    ensures forall k :: 0 <= k < i ==> receipts[k].id != id
  {
    if receipts == [] || receipts[0].id == id then 0 else 1 + FindReceipt(receipts[1..], id)
  }

  /** The newest receipt for a proposal. */
  function NewestReceipt(receipts: seq<Receipt>, proposalId: Text): Option<Receipt> {
    if receipts == [] then None
    else if receipts[|receipts| - 1].proposalId == proposalId then Some(receipts[|receipts| - 1])
    else NewestReceipt(receipts[..|receipts| - 1], proposalId)
  }

  function ReceiptFor(receipts: seq<Receipt>, s: PlanStep): Option<Receipt> {
    if Truthy(s.receiptId) then
      var i := FindReceipt(receipts, s.receiptId.value);
      if i < |receipts| then Some(receipts[i]) else None
    else if Truthy(s.proposalId) then NewestReceipt(receipts, s.proposalId.value)
    else None
  }

  predicate IsSource(receipts: seq<Receipt>, s: PlanStep) {
    var r := ReceiptFor(receipts, s);
    r.Some? && r.value.status in GOOD_STATUS
  }

  /** The last step up to here whose receipt can be bound. */
  function Source(receipts: seq<Receipt>, steps: seq<PlanStep>): Option<PlanStep> {
    if steps == [] then None
    else if IsSource(receipts, steps[|steps| - 1]) then Some(steps[|steps| - 1])
    else Source(receipts, steps[..|steps| - 1])
  }

  predicate WantsBinding(s: PlanStep, queue: seq<Proposal>) {
    && s.toolId == Some("text.summarize") && Truthy(s.proposalId)
    && var i := FindProposal(queue, s.proposalId.value);
       i < |queue| && queue[i].review == Pending
       && (ProposalPlaceholder(queue[i]) || Placeholder(s) || Bound(s))
  }

  const MAX_WORDS := 48

  function BindingFrom(desk: Desk, receipts: seq<Receipt>, source: PlanStep, proposalId: Text): Binding
    requires IsSource(receipts, source)
  {
    var r := ReceiptFor(receipts, source).value;
    Binding(proposalId, map["text" := Str(Short(desk.summary(r), 900)), "max_words" := Int(MAX_WORDS)], source.id,
            r.id, r.outputHash)
  }

  lemma {:induction false} SourceIsSource(receipts: seq<Receipt>, steps: seq<PlanStep>)
    ensures var s := Source(receipts, steps); s.Some? ==> IsSource(receipts, s.value)
    decreases |steps|
  {
    if steps != [] && !IsSource(receipts, steps[|steps| - 1]) { SourceIsSource(receipts, steps[..|steps| - 1]); }
  }

  /** A binding for each summarizing step that waits for one and has a source before it. */
  function Bindings(desk: Desk, g: Gov, steps: seq<PlanStep>): seq<Binding> {
    if steps == [] then []
    else
      var rest := Bindings(desk, g, steps[..|steps| - 1]);
      var s := steps[|steps| - 1];
      var source := Source(g.receipts, steps);
      if !WantsBinding(s, g.proposals) || source.None? then rest
      else
        SourceIsSource(g.receipts, steps);
        rest + [BindingFrom(desk, g.receipts, source.value, s.proposalId.value)]
  }

  function BindResults(desk: Desk, g: Gov, planId: Text, now: Text): (Gov, Answer) {
    var i := FindPlan(g.plans, planId);
    if i == |g.plans| then (g, NotFound)
    else if g.plans[i].review != Some(Approved) then (g, Conflict)
    else
      var bindings := Bindings(desk, g, g.plans[i].steps);
      if bindings == [] then (g, Nothing)
      else (Emit(desk, g,
                 BLANK_EVENT.(typ := "tool_plan_result_binding", planId := planId, bindings := bindings,
                              at := Some(now))), Done)
  }

  datatype Advance = NoPlan | Waiting(action: PlanAction) | Advanced(took: PlanAction, answer: Answer)

  /** One guided advance: take the next step that needs no human, or say what is awaited. */
  function AdvancePlan(desk: Desk, g: Gov, planId: Text, now: Text): (Gov, Advance) {
    var i := FindPlan(g.plans, planId);
    if i == |g.plans| then (g, NoPlan)
    else
      var action := NextAction(g.plans[i], g.proposals);
      match action
      case CanQueue =>
        var (g', answer) := QueueSteps(desk, g, planId, "guided advance queued step proposals; ", now);
        (g', Advanced(action, answer))
      case CanExecute(_) =>
        var (g', answer) := RequestExecution(desk, g, planId, "guided advance requested approved step execution", now);
        (g', Advanced(action, answer))
      case CanBind(_) =>
        var (g', answer) := BindResults(desk, g, planId, now);
        (g', Advanced(action, answer))
      case _ => (g, Waiting(action))
  }
}
