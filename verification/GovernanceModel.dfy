/** The governance part of the event reducer as a function of the state and one
    event: proposals, their reviews and receipts, and tool plans. */
module Governance {
  import opened Collections

  type Text = string

  /** An argument value; nested lists and objects are known by their printed form. */
  datatype Value =
    | Null
    | Bool(b: bool)
    | Int(n: int)
    | Real(r: real)
    | Str(s: Text)
    | List(shown: Text)
    | Object(shown: Text)

  type Args = map<Text, Value>

  datatype Review = Pending | Approved | Denied

  datatype Kind = Memory | Action

  datatype ProposalStatus = PendingReview | Reviewed

  datatype Policy = Policy(actionClass: Option<Text>, reasons: seq<Text>)

  /** The tool fields an intent event may carry; an absent key is `None`. */
  datatype Meta = Meta(toolId: Option<Text>, toolArguments: Option<Args>, riskClass: Option<Text>,
                       sideEffectClass: Option<Text>, dryRunAvailable: bool)

  const NO_META := Meta(None, None, None, None, false)

  datatype ReviewReceipt = ReviewReceipt(proposalId: Text, decision: Review, toolId: Option<Text>, mayDryRun: bool,
                                         reason: Text)

  datatype ResultBinding = ResultBinding(sourceStepId: Text, sourceReceiptId: Text, sourceOutputHash: Option<Text>,
                                         boundAt: Option<Text>)

  datatype Proposal = Proposal(
    id: Text,
    kind: Kind,
    status: ProposalStatus,
    review: Review,
    intent: Text,
    actionClass: Text,
    reasons: seq<Text>,
    meta: Meta,
    reviewedAt: Option<Text>,
    reviewReason: Option<Text>,
    receipt: Option<ReviewReceipt>,
    binding: Option<ResultBinding>)

  type Output = map<Text, Text>

  datatype Receipt = Receipt(
    id: Text,
    proposalId: Text,
    toolId: Option<Text>,
    intent: Text,
    status: Text,
    createdAt: Option<Text>,
    review: Review,
    reason: Text,
    output: Option<Output>,
    outputHash: Option<Text>,
    dryRun: Option<Output>)

  datatype PlanStep = PlanStep(
    id: Text,
    toolId: Option<Text>,
    reason: Text,
    arguments: Args,
    status: Text,
    proposalId: Option<Text>,
    receiptId: Option<Text>,
    executionStatus: Option<Text>,
    boundArguments: Option<Args>,
    binding: Option<ResultBinding>)

  datatype PlanReceipt = PlanReceipt(planId: Text, decision: Review, stepCount: nat, reason: Text)

  /** A tool plan.  `review` is `None` when the key is absent, as the planner leaves it. */
  datatype Plan = Plan(
    id: Text,
    task: Text,
    review: Option<Review>,
    status: Text,
    steps: seq<PlanStep>,
    reviewedAt: Option<Text>,
    receipt: Option<PlanReceipt>,
    materialized: seq<Text>,
    receiptIds: seq<Text>,
    boundCount: nat,
    lastMaterializedAt: Option<Text>,
    lastRequestedAt: Option<Text>,
    lastBoundAt: Option<Text>)

  datatype QueuedStep = QueuedStep(stepId: Text, proposalId: Option<Text>)

  datatype ExecutedStep = ExecutedStep(proposalId: Option<Text>, receiptId: Option<Text>, executionStatus: Option<Text>)

  datatype Binding = Binding(proposalId: Text, arguments: Args, sourceStepId: Text, sourceReceiptId: Text,
                             sourceOutputHash: Option<Text>)

  /** An event: the keys some governance handler reads, `""`, `[]` or `None` when absent,
      and everything else under `rest`.  `control` is the control or button named, `at`
      the time key of the event's type (reviewed, requested, queued or bound at). */
  datatype Event = Event(
    typ: Text,
    eventType: Text,
    schemaVersion: Option<Text>,
    timestamp: Option<Text>,
    control: Text,
    value: Text,
    intent: Text,
    actionClass: Option<Text>,
    policy: Option<Policy>,
    meta: Meta,
    operation: Text,
    memoryId: Text,
    proposalId: Text,
    planId: Text,
    decision: Text,
    reason: Option<Text>,
    at: Option<Text>,
    dryRun: Option<Output>,
    output: Option<Output>,
    plan: Option<Plan>,
    queued: seq<QueuedStep>,
    executed: seq<ExecutedStep>,
    bindings: seq<Binding>,
    rest: map<Text, Text>)

  const BLANK_EVENT := Event("", "", None, None, "", "", "", None, None, NO_META, "", "", "", "", "", None, None,
                             None, None, None,
                       [], [], [], map[])

  datatype Gov = Gov(
    agentMode: bool,
    proposals: seq<Proposal>,
    receipts: seq<Receipt>,
    plans: seq<Plan>,
    pendingCount: nat,
    memoryCount: nat,
    toolCount: nat,
    externalActionExecuted: bool)

  /** `hash` digests text and `hashOutput` an executor's result; `classify` is the keyword
      classifier, given the intent and the mode. */
  datatype Env = Env(hash: Text -> Text, hashOutput: Output -> Text, classify: (Text, bool) -> (Text, seq<Text>))

  const BASELINE := Gov(false, [], [], [], 0, 0, 0, false)

  datatype Fault = UnsupportedType | MissingActionClass

  const EVENT_TYPES := {
    "control_change", "button_event", "hardware_privacy", "heartbeat", "provider_event", "chat_event",
    "failure_event", "user_intent", "memory_event", "capture_request", "adapter_health", "adapter_schema_check",
    "bridge_disconnected", "proposal_review", "execution_request", "tool_plan", "tool_plan_review",
    "tool_plan_step_queue", "tool_plan_execution_request", "tool_plan_result_binding", "tool_control_toggle",
    "mcp_chat_read" }

  const EVENT_SCHEMA_VERSION := "metis_event.v0.1"

  function ValidateEvent(e: Event): Outcome<Event, Fault> {
    var typ := if e.typ != "" then e.typ else e.eventType;
    if typ !in EVENT_TYPES then Raised(UnsupportedType)
    else Ok(e.(typ := typ, eventType := "",
               schemaVersion := if e.schemaVersion.None? then Some(EVENT_SCHEMA_VERSION) else e.schemaVersion))
  }

  // --------------------------------------------------------------- identity

  function Digit(d: nat): char
    requires d < 10
  {
    (('0' as int) + d) as char
  }

  function Decimal(n: nat): (r: Text)
    ensures r != ""
  {
    if n < 10 then [Digit(n)] else Decimal(n / 10) + [Digit(n % 10)]
  }

  /** `format(n, "04d")`. */
  function Pad4(n: nat): Text {
    var d := Decimal(n);
    if |d| >= 4 then d else if |d| == 3 then "0" + d else if |d| == 2 then "00" + d else "000" + d
  }

  function Short(digest: Text, n: nat): Text {
    if |digest| <= n then digest else digest[..n]
  }

  function ProposalId(env: Env, index: nat, intent: Text, actionClass: Text): Text {
    "proposal_" + Pad4(index + 1) + "_" + Short(env.hash(Decimal(index) + ":" + actionClass + ":" + intent), 10)
  }

  function ReceiptId(env: Env, index: nat, proposalId: Text, status: Text, at: Option<Text>): Text {
    "execution_" + Pad4(index + 1) + "_"
    + Short(env.hash(Decimal(index) + ":" + proposalId + ":" + status + ":" + (if at.Some? then at.value else "")), 10)
  }

  // ---------------------------------------------------------------- counters

  predicate IsPending(p: Proposal) {
    p.status == PendingReview && p.review == Pending
  }

  function PendingProposals(queue: seq<Proposal>): nat {
    if queue == [] then 0
    else PendingProposals(queue[..|queue| - 1]) + if IsPending(queue[|queue| - 1]) then 1 else 0
  }

  function OfKind(queue: seq<Proposal>, kind: Kind): seq<Proposal> {
    if queue == [] then []
    else if queue[|queue| - 1].kind == kind then OfKind(queue[..|queue| - 1], kind) + [queue[|queue| - 1]]
    else OfKind(queue[..|queue| - 1], kind)
  }

  predicate PlanPending(p: Plan) {
    p.review == Some(Pending) || p.review == None
  }

  function PendingPlans(plans: seq<Plan>): nat {
    if plans == [] then 0
    else PendingPlans(plans[..|plans| - 1]) + if PlanPending(plans[|plans| - 1]) then 1 else 0
  }

  function Refresh(g: Gov): Gov {
    var pendingPlans := PendingPlans(g.plans);
    g.(pendingCount := PendingProposals(g.proposals) + pendingPlans,
       memoryCount := PendingProposals(OfKind(g.proposals, Memory)),
       toolCount := PendingProposals(OfKind(g.proposals, Action)) + pendingPlans)
  }

  // ----------------------------------------------------------------- intents

  predicate Truthy(t: Option<Text>) {
    t.Some? && t.value != ""
  }

  function BuildProposal(env: Env, index: nat, intent: Text, actionClass: Text, reasons: seq<Text>, kind: Kind,
                         meta: Meta): Proposal {
    Proposal(ProposalId(env, index, intent, actionClass), kind, PendingReview, Pending, intent, actionClass, reasons,
             meta,
             None, None, None, None)
  }

  function Enqueue(g: Gov, p: Proposal): Gov {
    Refresh(g.(proposals := g.proposals + [p]))
  }

  const GOVERNED_CLASSES := {"external_action", "modify_local", "sensitive_action", "actuator_action"}

  /** The class and reasons an intent is judged by: the event's own, else the classifier's. */
  function Judge(env: Env, g: Gov, e: Event): (Option<Text>, seq<Text>) {
    var (cls, reasons) := if e.policy.Some? then (e.policy.value.actionClass, e.policy.value.reasons)
                          else var c := env.classify(e.intent, g.agentMode); (Some(c.0), c.1);
    (if e.actionClass.Some? then e.actionClass else cls, reasons)
  }

  function ReduceIntent(env: Env, g: Gov, e: Event): Outcome<Gov, Fault> {
    var (cls, reasons) := Judge(env, g, e);
    if cls.None? then Raised(MissingActionClass)
    else if Truthy(e.meta.toolId) || (g.agentMode && cls.value in GOVERNED_CLASSES) then
      var kind := if e.meta.toolId == Some("memory.propose") then Memory else Action;
      Ok(Enqueue(g.(externalActionExecuted := false),
                 BuildProposal(env, |g.proposals|, e.intent, cls.value, reasons, kind, e.meta)))
    else Ok(g)
  }

  function ReduceMemory(env: Env, g: Gov, e: Event): Gov {
    if e.operation != "propose" then g
    else
      var intent := if e.memoryId == "" then "memory proposal" else e.memoryId;
      Enqueue(g,
              BuildProposal(env, |g.proposals|, intent, "propose_memory", ["memory proposal requires review"],
                            Memory, NO_META))
  }

  // ----------------------------------------------------------------- reviews

  function Decision(text: Text): Option<Review> {
    if text == "approved" then Some(Approved) else if text == "denied" then Some(Denied) else None
  }

  /** The first proposal with this id, or the length when there is none. */
  function FindProposal(queue: seq<Proposal>, id: Text): (i: nat)
    ensures i <= |queue|
    ensures i < |queue| ==> queue[i].id == id
    ensures forall k :: 0 <= k < i ==> queue[k].id != id
  {
    if queue == [] || queue[0].id == id then 0 else 1 + FindProposal(queue[1..], id)
  }

  function ReviewedAs(p: Proposal, decision: Review, reason: Option<Text>, at: Option<Text>): Proposal {
    var why := if reason.Some? then reason.value else "";
    p.(status := Reviewed, review := decision, reviewReason := Some(why), reviewedAt := at,
       receipt := Some(ReviewReceipt(p.id, decision, p.meta.toolId, p.meta.dryRunAvailable && decision == Approved,
                                     why)))
  }

  function EventTime(e: Event): Option<Text> {
    if Truthy(e.at) then e.at else e.timestamp
  }

  function ReduceReview(g: Gov, e: Event): Gov {
    var decision := Decision(e.decision);
    var i := FindProposal(g.proposals, e.proposalId);
    if decision.None? || i == |g.proposals| || g.proposals[i].review != Pending then g
    else Refresh(g.(proposals := g.proposals[i := ReviewedAs(g.proposals[i], decision.value, e.reason, EventTime(e))],
                    externalActionExecuted := false))
  }

  // ---------------------------------------------------------------- receipts

  const READ_ONLY_TOOLS := {"time.now", "git.status", "filesystem.read"}

  predicate HasContent(output: Option<Output>) {
    output.Some? && output.value != map[]
  }

  function ExecutionStatus(p: Proposal, output: Option<Output>): Text {
    if p.review == Pending then "blocked_unreviewed"
    else if p.review == Denied then "blocked_denied"
    else if p.meta.toolId.Some? && p.meta.toolId.value in READ_ONLY_TOOLS && HasContent(output)
      then "executed_read_only"
    else if p.meta.dryRunAvailable && p.meta.sideEffectClass == Some("none") then "dry_run_only_not_executed"
    else "blocked_side_effect"
  }

  function BuildReceipt(env: Env, index: nat, p: Proposal, at: Option<Text>, reason: Option<Text>,
                        dryRun: Option<Output>, output: Option<Output>): Receipt {
    var status := ExecutionStatus(p, output);
    var executed := status == "executed_read_only";
    Receipt(ReceiptId(env, index, p.id, status, at), p.id, p.meta.toolId, p.intent, status, at, p.review,
            if reason.Some? then reason.value else "",
            if executed then output else None,
            if executed then Some(Short(env.hashOutput(output.value), 16)) else None,
            if status == "dry_run_only_not_executed" && HasContent(dryRun) then dryRun else None)
  }

  function ReduceExecution(env: Env, g: Gov, e: Event): Gov {
    var i := FindProposal(g.proposals, e.proposalId);
    if i == |g.proposals| then g
    else g.(receipts := g.receipts
            + [BuildReceipt(env, |g.receipts|, g.proposals[i], EventTime(e), e.reason, e.dryRun, e.output)],
            externalActionExecuted := false)
  }

  // ------------------------------------------------------------------- plans

  function FindPlan(plans: seq<Plan>, id: Text): (i: nat)
    ensures i <= |plans|
    ensures i < |plans| ==> plans[i].id == id
    ensures forall k :: 0 <= k < i ==> plans[k].id != id
  {
    if plans == [] || plans[0].id == id then 0 else 1 + FindPlan(plans[1..], id)
  }

  function ReducePlan(g: Gov, e: Event): Gov {
    if e.plan.None? then g
    else
      var plan := e.plan.value;
      var review := if plan.review.None? then Some(Pending) else plan.review;
      Refresh(g.(plans := g.plans + [plan.(review := review, status := "pending_review")],
                 externalActionExecuted := false))
  }

  function ReducePlanReview(g: Gov, e: Event): Gov {
    var decision := Decision(Lower(e.decision));
    var i := FindPlan(g.plans, e.planId);
    if decision.None? || i == |g.plans| || !PlanPending(g.plans[i]) then g
    else
      var plan := g.plans[i];
      var reason := if e.reason.Some? then e.reason.value else "";
      Refresh(g.(plans := g.plans[i := plan.(review := Some(decision.value), reviewedAt := e.at, status := "reviewed",
                                              receipt := Some(PlanReceipt(plan.id, decision.value, |plan.steps|,
                                                                          reason)))],
                 externalActionExecuted := false))
  }

  /** The step takes the proposal id of the last entry queued for it. */
  function StepQueued(step: PlanStep, queued: QueuedStep): PlanStep {
    if step.id == queued.stepId then step.(proposalId := queued.proposalId, status := "proposal_queued") else step
  }

  function StepsQueued(steps: seq<PlanStep>, queued: QueuedStep): (r: seq<PlanStep>)
    ensures |r| == |steps| && forall i :: 0 <= i < |r| ==> r[i] == StepQueued(steps[i], queued)
  {
    seq(|steps|, i requires 0 <= i < |steps| => StepQueued(steps[i], queued))
  }

  function AddNew(ids: seq<Text>, id: Option<Text>): seq<Text> {
    if Truthy(id) && id.value !in ids then ids + [id.value] else ids
  }

  function AllQueued(steps: seq<PlanStep>, ids: seq<Text>, queued: seq<QueuedStep>): (r: (seq<PlanStep>, seq<Text>))
    ensures |r.0| == |steps|
  {
    if queued == [] then (steps, ids)
    else
      var (s, m) := AllQueued(steps, ids, queued[..|queued| - 1]);
      var last := queued[|queued| - 1];
      (StepsQueued(s, last), AddNew(m, last.proposalId))
  }

  function ReduceStepQueue(g: Gov, e: Event): Gov {
    var i := FindPlan(g.plans, e.planId);
    if e.planId == "" || e.queued == [] || i == |g.plans| || g.plans[i].review != Some(Approved) then g
    else
      var plan := g.plans[i];
      var (steps, ids) := AllQueued(plan.steps, plan.materialized, e.queued);
      Refresh(g.(plans := g.plans[i := plan.(steps := steps, materialized := ids, lastMaterializedAt := e.at,
                                              status := if ids != [] then "steps_queued" else plan.status)],
                 externalActionExecuted := false))
  }

  function StepExecuted(step: PlanStep, executed: ExecutedStep): PlanStep {
    if step.proposalId == executed.proposalId
    then step.(receiptId := executed.receiptId, executionStatus := executed.executionStatus) else step
  }

  function StepsExecuted(steps: seq<PlanStep>, executed: ExecutedStep): (r: seq<PlanStep>)
    ensures |r| == |steps| && forall i :: 0 <= i < |r| ==> r[i] == StepExecuted(steps[i], executed)
  {
    seq(|steps|, i requires 0 <= i < |steps| => StepExecuted(steps[i], executed))
  }

  function AllExecuted(steps: seq<PlanStep>, ids: seq<Text>,
                       executed: seq<ExecutedStep>): (r: (seq<PlanStep>, seq<Text>))
    ensures |r.0| == |steps|
  {
    if executed == [] then (steps, ids)
    else
      var (s, m) := AllExecuted(steps, ids, executed[..|executed| - 1]);
      var last := executed[|executed| - 1];
      (StepsExecuted(s, last), AddNew(m, last.receiptId))
  }

  function ReducePlanExecution(g: Gov, e: Event): Gov {
    var i := FindPlan(g.plans, e.planId);
    if e.planId == "" || e.executed == [] || i == |g.plans| || g.plans[i].review != Some(Approved) then g
    else
      var plan := g.plans[i];
      var (steps, ids) := AllExecuted(plan.steps, plan.receiptIds, e.executed);
      Refresh(g.(plans := g.plans[i := plan.(steps := steps, receiptIds := ids, lastRequestedAt := e.at,
                                              status := if ids != [] then "execution_requested" else plan.status)],
                 externalActionExecuted := false))
  }

  // ---------------------------------------------------------------- bindings

  function BindingOf(b: Binding, at: Option<Text>): ResultBinding {
    ResultBinding(b.sourceStepId, b.sourceReceiptId, b.sourceOutputHash, at)
  }

  function StepBound(step: PlanStep, b: Binding, at: Option<Text>): PlanStep {
    if step.proposalId == Some(b.proposalId)
    then step.(boundArguments := Some(b.arguments), binding := Some(BindingOf(b, at)), status := "result_bound")
      else step
  }

  function StepsBound(steps: seq<PlanStep>, b: Binding, at: Option<Text>): (r: seq<PlanStep>)
    ensures |r| == |steps| && forall i :: 0 <= i < |r| ==> r[i] == StepBound(steps[i], b, at)
  {
    seq(|steps|, i requires 0 <= i < |steps| => StepBound(steps[i], b, at))
  }

  function StepsOf(steps: seq<PlanStep>, proposalId: Text): nat {
    if steps == [] then 0
    else StepsOf(steps[..|steps| - 1], proposalId) + if steps[|steps| - 1].proposalId == Some(proposalId) then 1 else 0
  }

  /** Bindings are applied one by one; one whose proposal is missing or reviewed is skipped. */
  function AllBound(queue: seq<Proposal>, steps: seq<PlanStep>, count: nat, bindings: seq<Binding>, at: Option<Text>):
      (r: (seq<Proposal>, seq<PlanStep>, nat))
    ensures |r.0| == |queue| && |r.1| == |steps|
  {
    if bindings == [] then (queue, steps, count)
    else
      var (q, s, n) := AllBound(queue, steps, count, bindings[..|bindings| - 1], at);
      var b := bindings[|bindings| - 1];
      var i := FindProposal(q, b.proposalId);
      if i == |q| || q[i].review != Pending then (q, s, n)
      else
        (q[i := q[i].(meta := q[i].meta.(toolArguments := Some(b.arguments)), binding := Some(BindingOf(b, at)))],
         StepsBound(s, b, at),
         n + StepsOf(s, b.proposalId))
  }

  function ReduceBinding(g: Gov, e: Event): Gov {
    var i := FindPlan(g.plans, e.planId);
    if e.planId == "" || e.bindings == [] || i == |g.plans| then g
    else
      var plan := g.plans[i];
      var (queue, steps, count) := AllBound(g.proposals, plan.steps, plan.boundCount, e.bindings, e.at);
      Refresh(g.(proposals := queue,
                 plans := g.plans[i := plan.(steps := steps, boundCount := count, lastBoundAt := e.at)],
                 externalActionExecuted := false))
  }

  // ---------------------------------------------------------------- dispatch

  /** What a validated event does to the governance state. */
  function Reduce(env: Env, g: Gov, e: Event): Outcome<Gov, Fault> {
    if e.typ == "user_intent" then ReduceIntent(env, g, e)
    else if e.typ in PLAN_EVENTS then Ok(ReducePlanEvent(g, e))
    else Ok(ReduceOther(env, g, e))
  }

  const PLAN_EVENTS := {"tool_plan", "tool_plan_review", "tool_plan_step_queue", "tool_plan_execution_request"}

  function ReducePlanEvent(g: Gov, e: Event): Gov {
    if e.typ == "tool_plan" then ReducePlan(g, e)
    else if e.typ == "tool_plan_review" then ReducePlanReview(g, e)
    else if e.typ == "tool_plan_step_queue" then ReduceStepQueue(g, e)
    else ReducePlanExecution(g, e)
  }

  function ReduceOther(env: Env, g: Gov, e: Event): Gov {
    if e.typ == "memory_event" then ReduceMemory(env, g, e)
    else if e.typ == "proposal_review" then ReduceReview(g, e)
    else if e.typ == "execution_request" then ReduceExecution(env, g, e)
    else if e.typ == "tool_plan_result_binding" then ReduceBinding(g, e)
    else ReduceSwitch(g, e)
  }

  /** The mode button and the control toggles. */
  function ReduceSwitch(g: Gov, e: Event): Gov {
    if e.typ == "button_event" && e.control == "am_fm" then g.(agentMode := e.value in {"fm", "agent"})
    else if e.typ == "tool_control_toggle" && e.control in {"tool_usage", "boh_mcp", "project_atlas_mcp"} then
      g.(externalActionExecuted := false)
    else g
  }
}
