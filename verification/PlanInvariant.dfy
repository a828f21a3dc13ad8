/** What a plan and the queues look like while an approved plan is being worked through. */
module PlanInvariant {
  import opened Collections
  import opened Governance
  import opened GovernanceProofs
  import opened ToolArguments
  import opened PlanRunner

  /** What executing an approved proposal for this tool records. */
  function ToolStatus(tool: Tool): Text {
    if tool.id in READ_ONLY_TOOLS then "executed_read_only"
    else if tool.mode == "dry_run" && tool.sideEffect == "none" then "dry_run_only_not_executed"
    else "blocked_side_effect"
  }

  ghost predicate RegistryOk(registry: Registry) {
    forall t :: t in registry ==> registry[t].id == t && t != ""
  }

  /** The hypothesis on executors: they return a result, and it is not empty. */
  ghost predicate NonFailing(desk: Desk) {
    forall n, t, a :: desk.run(n, t, a).Ok? && desk.run(n, t, a).value != map[]
  }

  predicate Dependent(s: PlanStep) {
    s.toolId == Some("text.summarize") && Placeholder(s)
  }

  predicate KnownTool(registry: Registry, s: PlanStep) {
    s.toolId.Some? && s.toolId.value in registry
  }

  // ---------------------------------------------- the part that never changes

  /** Ids increase along the plan. */
  ghost predicate Increasing(steps: seq<PlanStep>, i: int, j: int) {
    0 <= i < j < |steps| ==> Before(steps[i].id, steps[j].id) && steps[i].id != steps[j].id
  }

  /** An eligible step's tool is registered, and its arguments validate to themselves. */
  ghost predicate Queueable(registry: Registry, steps: seq<PlanStep>, i: int) {
    0 <= i < |steps| && Eligible(steps[i]) ==>
      KnownTool(registry, steps[i])
      && Validate(registry, steps[i].toolId.value, steps[i].arguments) == Ok(Checked(steps[i].arguments, {}))
  }

  /** What runs before a step that waits for a result can be its source. */
  ghost predicate FollowsSources(registry: Registry, steps: seq<PlanStep>, j: int, i: int) {
    0 <= j < i < |steps| && Dependent(steps[i]) && Eligible(steps[j]) && KnownTool(registry, steps[j]) ==>
      ToolStatus(registry[steps[j].toolId.value]) in GOOD_STATUS
  }

  ghost predicate ShapeOk(registry: Registry, steps: seq<PlanStep>) {
    && (forall i, j {:trigger Increasing(steps, i, j)} :: Increasing(steps, i, j))
    && (forall i {:trigger Queueable(registry, steps, i)} :: Queueable(registry, steps, i))
  }

  ghost predicate SourcesFirst(registry: Registry, steps: seq<PlanStep>) {
    forall j, i {:trigger FollowsSources(registry, steps, j, i)} :: FollowsSources(registry, steps, j, i)
  }

  /** The same step further along: nothing that was reached is undone. */
  ghost predicate Progresses(s: PlanStep, s': PlanStep) {
    && s'.id == s.id && s'.toolId == s.toolId && s'.arguments == s.arguments && (Eligible(s') <==> Eligible(s))
    && (s.proposalId.Some? ==> s'.proposalId == s.proposalId)
    && (s.receiptId.Some? ==> s'.receiptId.Some?)
    && (Bound(s) ==> Bound(s'))
  }

  ghost predicate StepsProgress(a: seq<PlanStep>, b: seq<PlanStep>) {
    |b| == |a| && forall i :: 0 <= i < |a| ==> Progresses(a[i], b[i])
  }

  lemma ShapeKept(registry: Registry, a: seq<PlanStep>, b: seq<PlanStep>)
    requires ShapeOk(registry, a) && StepsProgress(a, b)
    ensures ShapeOk(registry, b)
  {
    forall i, j ensures Increasing(b, i, j) { assert Increasing(a, i, j); }
    forall i ensures Queueable(registry, b, i) { assert Queueable(registry, a, i); }
  }

  lemma SourcesKept(registry: Registry, a: seq<PlanStep>, b: seq<PlanStep>)
    requires SourcesFirst(registry, a) && StepsProgress(a, b)
    ensures SourcesFirst(registry, b)
  {
    forall j, i ensures FollowsSources(registry, b, j, i) { assert FollowsSources(registry, a, j, i); }
  }

  // ------------------------------------------------------- the part that moves

  predicate Fits(registry: Registry, p: Proposal, s: PlanStep) {
    && KnownTool(registry, s)
    && p.meta.toolId == s.toolId
    && p.meta.dryRunAvailable == (registry[s.toolId.value].mode == "dry_run")
    && p.meta.sideEffectClass == Some(registry[s.toolId.value].sideEffect)
  }

  /** The step's proposal exists and is for this step's tool and, until a result is
      bound, for its arguments. */
  ghost predicate QueuedOk(registry: Registry, queue: seq<Proposal>, s: PlanStep) {
    s.proposalId.Some? ==>
      && s.proposalId.value != "" && Eligible(s)
      && var i := FindProposal(queue, s.proposalId.value);
         i < |queue| && Fits(registry, queue[i], s) && (!Bound(s) ==> queue[i].meta.toolArguments == Some(s.arguments))
  }

  /** The step's receipt exists, and says what its tool's receipts say. */
  ghost predicate ExecutedOk(registry: Registry, queue: seq<Proposal>, receipts: seq<Receipt>, s: PlanStep) {
    if s.receiptId.None? then s.executionStatus.None?
    else
      && s.receiptId.value != "" && s.proposalId.Some? && KnownTool(registry, s)
      && s.executionStatus == Some(ToolStatus(registry[s.toolId.value]))
      && (var r := FindReceipt(receipts, s.receiptId.value);
          r < |receipts| && receipts[r].status == ToolStatus(registry[s.toolId.value]))
      && (var i := FindProposal(queue, s.proposalId.value);
          i < |queue| && queue[i].review == Approved)
  }

  ghost predicate StepOk(registry: Registry, g: Gov, steps: seq<PlanStep>, i: int) {
    0 <= i < |steps| ==>
        QueuedOk(registry, g.proposals, steps[i]) && ExecutedOk(registry, g.proposals, g.receipts, steps[i])
  }

  ghost predicate StepsOk(registry: Registry, g: Gov, steps: seq<PlanStep>) {
    forall i {:trigger StepOk(registry, g, steps, i)} :: StepOk(registry, g, steps, i)
  }

  // ------------------------------------------------------------ receipt ids

  function ReceiptSlot(index: nat): Text {
    "execution_" + Pad4(index + 1) + "_"
  }

  ghost predicate ReceiptOk(receipts: seq<Receipt>, i: int) {
    0 <= i < |receipts| ==> ReceiptSlot(i) <= receipts[i].id
  }

  ghost predicate ReceiptsOk(receipts: seq<Receipt>) {
    forall i {:trigger ReceiptOk(receipts, i)} :: ReceiptOk(receipts, i)
  }

  lemma ReceiptTail(id: Text, i: nat)
    requires ReceiptSlot(i) <= id
    ensures |id| >= 10 && Pad4(i + 1) + "_" <= id[10..]
  {
    assert ReceiptSlot(i) == "execution_" + (Pad4(i + 1) + "_");
    assert ReceiptSlot(i)[10..] == Pad4(i + 1) + "_";
    assert id[..|ReceiptSlot(i)|][10..] == id[10..][..|ReceiptSlot(i)| - 10];
  }

  lemma ReceiptSlotUnique(id: Text, i: nat, j: nat)
    requires ReceiptSlot(i) <= id && ReceiptSlot(j) <= id
    ensures i == j
  {
    ParsePad4(i + 1);
    ParsePad4(j + 1);
    ReceiptTail(id, i);
    ReceiptTail(id, j);
    SameDigits(Pad4(i + 1), Pad4(j + 1), id[10..]);
  }

  lemma ReceiptIdsDistinct(receipts: seq<Receipt>, i: nat)
    requires ReceiptsOk(receipts) && i < |receipts|
    ensures FindReceipt(receipts, receipts[i].id) == i && receipts[i].id != ""
  {
    var k := FindReceipt(receipts, receipts[i].id);
    assert ReceiptOk(receipts, i) && ReceiptOk(receipts, k);
    ReceiptSlotUnique(receipts[i].id, i, k);
  }

  lemma {:induction false} FindReceiptStable(a: seq<Receipt>, b: seq<Receipt>, id: Text)
    requires a <= b && FindReceipt(a, id) < |a|
    ensures FindReceipt(b, id) == FindReceipt(a, id)
  {
    if a[0].id != id { FindReceiptStable(a[1..], b[1..], id); }
  }

  lemma {:induction false} FindProposalStable(a: seq<Proposal>, b: seq<Proposal>, id: Text)
    requires |a| <= |b| && (forall i :: 0 <= i < |a| ==> b[i].id == a[i].id) && FindProposal(a, id) < |a|
    ensures FindProposal(b, id) == FindProposal(a, id)
  {
    if a[0].id != id { FindProposalStable(a[1..], b[1..], id); }
  }

  lemma {:induction false} LookupIsFind(queue: seq<Proposal>, id: Text)
    requires QueueOk(queue)
    ensures var i := FindProposal(queue, id); Lookup(queue, Some(id)) == if i < |queue| then Some(queue[i]) else None
  {
    LookupFrom(queue, |queue|, id);
    assert queue[..|queue|] == queue;
  }

  lemma {:induction false} LookupFrom(queue: seq<Proposal>, n: nat, id: Text)
    requires QueueOk(queue) && n <= |queue|
    ensures var i := FindProposal(queue, id);
            Lookup(queue[..n], Some(id)) == if i < n then Some(queue[i]) else None
    decreases n
  {
    var i := FindProposal(queue, id);
    if n > 0 {
      assert queue[..n][..n - 1] == queue[..n - 1];
      LookupFrom(queue, n - 1, id);
      if queue[n - 1].id == id { IdsDistinct(queue, n - 1, i); }
    }
  }

  // -------------------------------------------------------------- the invariant

  /** Plan `k` is the approved plan being worked through. */
  ghost predicate PlanInv(desk: Desk, g: Gov, k: nat) {
    && GovOk(g) && ReceiptsOk(g.receipts) && RegistryOk(desk.registry)
    && k < |g.plans| && g.plans[k].id != "" && FindPlan(g.plans, g.plans[k].id) == k
    && g.plans[k].review == Some(Approved)
    && ShapeOk(desk.registry, g.plans[k].steps)
    && StepsOk(desk.registry, g, g.plans[k].steps)
  }

  /** Guided advance also needs that what runs before a waiting step can be its source. */
  ghost predicate GuidedInv(desk: Desk, g: Gov, k: nat) {
    PlanInv(desk, g, k) && SourcesFirst(desk.registry, g.plans[k].steps)
  }

  // --------------------------------------------------------------- the measure

  /** What is left to do for a step: queue it, bind a result to it, execute it. */
  function Work(s: PlanStep): (n: nat)
    ensures n <= 3
  {
    if !Eligible(s) then 0
    else
      (if s.proposalId.None? then 1 else 0)
      + (if Dependent(s) && !Bound(s) then 1 else 0)
      + (if s.receiptId.None? then 1 else 0)
  }

  function Measure(steps: seq<PlanStep>): nat {
    if steps == [] then 0 else Measure(steps[..|steps| - 1]) + Work(steps[|steps| - 1])
  }

  lemma {:induction false} MeasureBound(steps: seq<PlanStep>)
    ensures Measure(steps) <= 3 * |steps|
  {
    if steps != [] { MeasureBound(steps[..|steps| - 1]); }
  }

  lemma {:induction false} MeasureMonotone(a: seq<PlanStep>, b: seq<PlanStep>)
    requires |a| == |b| && forall i :: 0 <= i < |a| ==> Work(b[i]) <= Work(a[i])
    ensures Measure(b) <= Measure(a)
  {
    if a != [] { MeasureMonotone(a[..|a| - 1], b[..|b| - 1]); }
  }

  lemma {:induction false} MeasureDrops(a: seq<PlanStep>, b: seq<PlanStep>, i: nat)
    requires |a| == |b| && (forall i :: 0 <= i < |a| ==> Work(b[i]) <= Work(a[i])) && i < |a| && Work(b[i]) < Work(a[i])
    ensures Measure(b) < Measure(a)
  {
    if i == |a| - 1 {
      MeasureMonotone(a[..|a| - 1], b[..|b| - 1]);
    } else {
      MeasureDrops(a[..|a| - 1], b[..|b| - 1], i);
    }
  }

  lemma ProgressWorks(a: seq<PlanStep>, b: seq<PlanStep>)
    requires StepsProgress(a, b)
    ensures forall i :: 0 <= i < |a| ==> Work(b[i]) <= Work(a[i])
    ensures Measure(b) <= Measure(a)
  {
    forall i | 0 <= i < |a| ensures Work(b[i]) <= Work(a[i]) { assert Progresses(a[i], b[i]); }
    MeasureMonotone(a, b);
  }

  /** The eligible steps are the plan's steps that are eligible, in order. */
  lemma {:induction false} EligibleIs(steps: seq<PlanStep>, s: PlanStep)
    ensures s in EligibleSteps(steps) <==> s in steps && Eligible(s)
  {
    if steps != [] {
      var n := |steps| - 1;
      EligibleIs(steps[..n], s);
      assert steps == steps[..n] + [steps[n]];
    }
  }
}
