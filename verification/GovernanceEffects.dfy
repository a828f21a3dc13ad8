/** What each governance event does to the state, field by field: who decided what in
    which words, what a receipt says, and how the entries of one event add up. */
module GovernanceEffects {
  import opened Collections
  import opened Governance
  import opened GovernanceProofs
  import opened GovernanceTheorems
  import opened PlanTheorems
  import opened PlanInvariant
  import PlanExecuting

  /** `i` is the place an event that names `id` finds: the first with that id. */
  ghost predicate FirstProposal(queue: seq<Proposal>, i: int, id: Text) {
    0 <= i < |queue| && queue[i].id == id && forall k :: 0 <= k < i ==> queue[k].id != id
  }

  ghost predicate FirstPlan(plans: seq<Plan>, i: int, id: Text) {
    0 <= i < |plans| && plans[i].id == id && forall k :: 0 <= k < i ==> plans[k].id != id
  }

  function OrElse(t: Option<Text>, other: Text): Text {
    if t.Some? then t.value else other
  }

  // ----------------------------------------------------------------- reviews

  /** A review in the words "approved" or "denied" decides the pending proposal it names,
      and that alone; any other word, or a proposal already decided, changes nothing. */
  lemma ReviewExactly(env: Env, g: Gov, e: Event, i: nat)
    requires e.typ == "proposal_review" && FirstProposal(g.proposals, i, e.proposalId)
    ensures Reduce(env, g, e).Ok?
    ensures var g' := Reduce(env, g, e).value;
            if g.proposals[i].review == Pending && e.decision in {"approved", "denied"} then
              && |g'.proposals| == |g.proposals| && g'.proposals == g.proposals[i := g'.proposals[i]]
              && g'.receipts == g.receipts && g'.plans == g.plans && g'.agentMode == g.agentMode
              && !g'.externalActionExecuted
              && Decided(g.proposals[i], e, g'.proposals[i])
            else g' == g
  {
    assert FindProposal(g.proposals, e.proposalId) == i;
    assert Reduce(env, g, e) == Ok(ReduceReview(g, e));
  }

  /** `p'` is `p` as event `e` decided it. */
  ghost predicate Decided(p: Proposal, e: Event, p': Proposal) {
    && (e.decision == "approved" ==> p'.review == Approved)
    && (e.decision == "denied" ==> p'.review == Denied)
    && p'.status == Reviewed && p'.reviewReason == Some(OrElse(e.reason, ""))
    && p'.reviewedAt == (if e.at.Some? && e.at.value != "" then e.at else e.timestamp)
    && p'.receipt.Some? && p'.receipt.value.proposalId == p.id && p'.receipt.value.decision == p'.review
    && p'.receipt.value.toolId == p.meta.toolId && p'.receipt.value.reason == OrElse(e.reason, "")
    && (p'.receipt.value.mayDryRun <==> e.decision == "approved" && p.meta.dryRunAvailable)
    && p'.id == p.id && p'.kind == p.kind && p'.intent == p.intent && p'.actionClass == p.actionClass
    && p'.reasons == p.reasons && p'.meta == p.meta && p'.binding == p.binding
  }

  lemma ReviewOfNothing(env: Env, g: Gov, e: Event)
    requires e.typ == "proposal_review" && forall k :: 0 <= k < |g.proposals| ==> g.proposals[k].id != e.proposalId
    ensures Reduce(env, g, e) == Ok(g)
  {
    assert FindProposal(g.proposals, e.proposalId) == |g.proposals|;
    assert Reduce(env, g, e) == Ok(ReduceReview(g, e));
  }

  /** The same of the first plan with the id named, the word taken in any case; a plan with
      no review yet is as good as a pending one. */
  lemma PlanReviewExactly(env: Env, g: Gov, e: Event, i: nat)
    requires e.typ == "tool_plan_review" && FirstPlan(g.plans, i, e.planId)
    ensures Reduce(env, g, e).Ok?
    ensures var g', word := Reduce(env, g, e).value, Lower(e.decision);
            if (g.plans[i].review.None? || g.plans[i].review == Some(Pending)) && word in {"approved", "denied"} then
              && |g'.plans| == |g.plans| && g'.plans == g.plans[i := g'.plans[i]]
              && g'.proposals == g.proposals && g'.receipts == g.receipts && g'.agentMode == g.agentMode
              && !g'.externalActionExecuted
              && PlanDecided(g.plans[i], e, word, g'.plans[i])
            else g' == g
  {
    assert FindPlan(g.plans, e.planId) == i;
    assert Reduce(env, g, e) == Ok(ReducePlanReview(g, e));
  }

  ghost predicate PlanDecided(p: Plan, e: Event, word: Text, p': Plan) {
    && (word == "approved" ==> p'.review == Some(Approved))
    && (word == "denied" ==> p'.review == Some(Denied))
    && p'.status == "reviewed" && p'.reviewedAt == e.at
    && p'.receipt.Some? && p'.receipt.value.planId == p.id && Some(p'.receipt.value.decision) == p'.review
    && p'.receipt.value.stepCount == |p.steps| && p'.receipt.value.reason == OrElse(e.reason, "")
    && p'.id == p.id && p'.task == p.task && p'.steps == p.steps && p'.materialized == p.materialized
    && p'.receiptIds == p.receiptIds && p'.boundCount == p.boundCount
    && p'.lastMaterializedAt == p.lastMaterializedAt && p'.lastRequestedAt == p.lastRequestedAt
    && p'.lastBoundAt == p.lastBoundAt
  }

  /** Words are compared in lower case: letter by letter, nothing else touched. */
  lemma {:induction false} LowerExactly(s: Text, k: nat)
    requires k < |s|
    ensures Lower(s)[k] == (if 'A' <= s[k] <= 'Z' then (s[k] as int + 32) as char else s[k])
  {
    if k > 0 { LowerExactly(s[1..], k - 1); }
  }

  // --------------------------------------------------------- who was decided

  ghost predicate DecidesPlan(before: Gov, e: Event, after: Gov, i: nat, review: Review) {
    && e.typ == "tool_plan_review"
    && (review == Approved <==> Lower(e.decision) == "approved")
    && (review == Denied <==> Lower(e.decision) == "denied")
    && i < |before.plans| && (before.plans[i].review.None? || before.plans[i].review == Some(Pending))
    && before.plans[i].id == e.planId
    && i < |after.plans| && after.plans[i].review == Some(review)
  }

  lemma PlanDecidedNow(env: Env, g: Gov, e: Event, i: nat)
    requires Reduce(env, g, e).Ok?
    requires i < |Reduce(env, g, e).value.plans| && !PlanPending(Reduce(env, g, e).value.plans[i])
    requires i < |g.plans| ==> PlanPending(g.plans[i])
    requires e.typ == "tool_plan" && e.plan.Some? ==> FromPlanner(e.plan.value)
    ensures var after := Reduce(env, g, e).value;
            DecidesPlan(g, e, after, i, after.plans[i].review.value)
  {
    ReducePlansStep(env, g, e);
    var k := FindPlan(g.plans, e.planId);
    if e.typ == "tool_plan_review" {
      assert Reduce(env, g, e) == Ok(ReducePlanReview(g, e));
    } else {
      OnlyReviewsDecide(env, g, e, i);
    }
  }

  /** No other event turns a pending plan into a decided one. */
  lemma OnlyReviewsDecide(env: Env, g: Gov, e: Event, i: nat)
    requires Reduce(env, g, e).Ok? && e.typ != "tool_plan_review"
    requires i < |g.plans| && PlanPending(g.plans[i])
    ensures i < |Reduce(env, g, e).value.plans| && PlanPending(Reduce(env, g, e).value.plans[i])
  {
    if e.typ == "user_intent" {
      IntentPlansSame(env, g, e);
    } else if e.typ in PLAN_EVENTS {
      assert Reduce(env, g, e) == Ok(ReducePlanEvent(g, e));
      PlanEventsDecideNothing(g, e, i);
    } else if e.typ == "tool_plan_result_binding" {
      assert Reduce(env, g, e) == Ok(ReduceBinding(g, e));
      BindingDecidesNothing(g, e, i);
    } else {
      OtherPlansSame(env, g, e);
    }
  }

  lemma PlanEventsDecideNothing(g: Gov, e: Event, i: nat)
    requires e.typ in PLAN_EVENTS && e.typ != "tool_plan_review" && i < |g.plans| && PlanPending(g.plans[i])
    ensures i < |ReducePlanEvent(g, e).plans| && PlanPending(ReducePlanEvent(g, e).plans[i])
  {
  }

  lemma BindingDecidesNothing(g: Gov, e: Event, i: nat)
    requires i < |g.plans| && PlanPending(g.plans[i])
    ensures i < |ReduceBinding(g, e).plans| && PlanPending(ReduceBinding(g, e).plans[i])
  {
  }

  /** Event `k` of the log decided plan `i`. */
  ghost predicate DecidedAt(env: Env, log: seq<Event>, k: nat, i: nat, review: Review) {
    k < |log| && DecidesPlan(Final(env, log[..k]), log[k], Final(env, log[..k + 1]), i, review)
  }

  lemma DecidedLonger(env: Env, log: seq<Event>, n: nat, k: nat, i: nat, review: Review)
    requires n <= |log| && DecidedAt(env, log[..n], k, i, review)
    ensures DecidedAt(env, log, k, i, review)
  {
    assert log[..n][..k] == log[..k] && log[..n][..k + 1] == log[..k + 1];
  }

  lemma DecidedLast(env: Env, log: seq<Event>, i: nat)
    requires PlannerBuilt(log) && log != [] && i < |Final(env, log).plans| && !PlanPending(Final(env, log).plans[i])
    requires var before := Final(env, log[..|log| - 1]);
             Reduce(env, before, log[|log| - 1]).Ok? && (i < |before.plans| ==> PlanPending(before.plans[i]))
    ensures DecidedAt(env, log, |log| - 1, i, Final(env, log).plans[i].review.value)
  {
    var n := |log| - 1;
    assert log[..n + 1] == log;
    PlanDecidedNow(env, Final(env, log[..n]), log[n], i);
  }

  /** A decided plan was decided by one review of the log, in that very word; until then
      it was pending. */
  lemma {:induction false} PlanReviewTraces(env: Env, log: seq<Event>, i: nat) returns (k: nat)
    requires PlannerBuilt(log)
    requires i < |Final(env, log).plans| && !PlanPending(Final(env, log).plans[i])
    ensures DecidedAt(env, log, k, i, Final(env, log).plans[i].review.value)
    decreases |log|
  {
    var n := |log| - 1;
    var before := Final(env, log[..n]);
    if Reduce(env, before, log[n]).Raised? || (i < |before.plans| && !PlanPending(before.plans[i])) {
      DecidedBefore(env, log, i);
      k := PlanReviewTraces(env, log[..n], i);
      DecidedLonger(env, log, n, k, i, before.plans[i].review.value);
    } else {
      DecidedLast(env, log, i);
      k := n;
    }
  }

  lemma DecidedBefore(env: Env, log: seq<Event>, i: nat)
    requires log != [] && i < |Final(env, log).plans|
    requires var before := Final(env, log[..|log| - 1]);
             || Reduce(env, before, log[|log| - 1]).Raised?
             || (i < |before.plans| && !PlanPending(before.plans[i]))
    ensures var before := Final(env, log[..|log| - 1]);
            i < |before.plans| && before.plans[i].review == Final(env, log).plans[i].review
  {
    var n := |log| - 1;
    var before := Final(env, log[..n]);
    if i < |before.plans| {
      PlanDecisionStands(env, before, [log[n]], i);
      AfterConcat(env, BASELINE, log[..n], [log[n]]);
      assert log[..n] + [log[n]] == log;
    }
  }

  // ----------------------------------------------------------------- intents

  /** An intent is judged by the class it names, else by the one its policy names, else by
      the classifier's; a policy that names none is an error. */
  ghost predicate JudgedAs(env: Env, g: Gov, e: Event, cls: Text) {
    cls == if e.actionClass.Some? then e.actionClass.value
           else if e.policy.None? then env.classify(e.intent, g.agentMode).0
           else OrElse(e.policy.value.actionClass, "")
  }

  /** An intent fails exactly when nothing names its class. */
  lemma IntentFailsIff(env: Env, g: Gov, e: Event)
    requires e.typ == "user_intent"
    ensures Reduce(env, g, e).Raised?
            <==> e.actionClass.None? && e.policy.Some? && e.policy.value.actionClass.None?
    ensures Reduce(env, g, e).Raised? ==> Reduce(env, g, e).error == MissingActionClass
  {
    assert Reduce(env, g, e) == ReduceIntent(env, g, e);
  }

  /** It names a tool, or in agent mode its class is one of the four that act. */
  ghost predicate Governed(g: Gov, e: Event, cls: Text) {
    || (e.meta.toolId.Some? && e.meta.toolId.value != "")
    || (g.agentMode && cls in {"external_action", "modify_local", "sensitive_action", "actuator_action"})
  }

  /** A governed intent becomes a proposal: new, pending and exactly what was asked. */
  lemma IntentExactly(env: Env, g: Gov, e: Event, cls: Text)
    requires e.typ == "user_intent" && JudgedAs(env, g, e, cls) && Governed(g, e, cls)
    requires Reduce(env, g, e).Ok?
    ensures var g' := Reduce(env, g, e).value;
            && Added(env, g, g', e.intent, cls) && !g'.externalActionExecuted
            && g'.proposals[|g.proposals|].meta == e.meta
            && (g'.proposals[|g.proposals|].kind == Memory <==> e.meta.toolId == Some("memory.propose"))
            && g'.proposals[|g.proposals|].reasons
               == if e.policy.Some? then e.policy.value.reasons else env.classify(e.intent, g.agentMode).1
  {
    assert Reduce(env, g, e) == ReduceIntent(env, g, e);
    var (named, reasons) := Judge(env, g, e);
    JudgedSo(env, g, e, cls);
    var kind := if e.meta.toolId == Some("memory.propose") then Memory else Action;
    EnqueueAdds(env, g, e.intent, cls, reasons, kind, e.meta);
  }

  /** Any other intent proposes nothing. */
  lemma IntentIgnored(env: Env, g: Gov, e: Event, cls: Text)
    requires e.typ == "user_intent" && JudgedAs(env, g, e, cls) && !Governed(g, e, cls)
    requires Reduce(env, g, e).Ok?
    ensures Reduce(env, g, e).value == g
  {
    assert Reduce(env, g, e) == ReduceIntent(env, g, e);
    JudgedSo(env, g, e, cls);
  }

  lemma JudgedSo(env: Env, g: Gov, e: Event, cls: Text)
    requires JudgedAs(env, g, e, cls)
    ensures var (named, reasons) := Judge(env, g, e);
            && (named.None? <==> e.actionClass.None? && e.policy.Some? && e.policy.value.actionClass.None?)
            && (named.Some? ==> named.value == cls)
            && reasons == if e.policy.Some? then e.policy.value.reasons else env.classify(e.intent, g.agentMode).1
  {
  }

  lemma EnqueueAdds(env: Env, g: Gov, intent: Text, cls: Text, reasons: seq<Text>, kind: Kind, meta: Meta)
    ensures var p := BuildProposal(env, |g.proposals|, intent, cls, reasons, kind, meta);
            && Added(env, g, Enqueue(g.(externalActionExecuted := false), p), intent, cls)
            && Enqueue(g.(externalActionExecuted := false), p).proposals[|g.proposals|] == p
            && p.kind == kind && p.meta == meta && p.reasons == reasons
  {
  }

  /** One pending proposal more, with an id made of its place and what it is about. */
  ghost predicate Added(env: Env, g: Gov, g': Gov, intent: Text, cls: Text) {
    && |g'.proposals| == |g.proposals| + 1 && g'.proposals[..|g.proposals|] == g.proposals
    && g'.receipts == g.receipts && g'.plans == g.plans && g'.agentMode == g.agentMode
    && var p := g'.proposals[|g.proposals|];
    && p.status == PendingReview && p.review == Pending && p.intent == intent && p.actionClass == cls
    && p.reviewedAt.None? && p.reviewReason.None? && p.receipt.None? && p.binding.None?
    && p.id == ProposalId(env, |g.proposals|, intent, cls)
  }

  /** A request to remember becomes a memory proposal without a tool; no other operation
      proposes anything. */
  lemma MemoryExactly(env: Env, g: Gov, e: Event)
    requires e.typ == "memory_event"
    ensures Reduce(env, g, e).Ok?
    ensures var g' := Reduce(env, g, e).value;
            if e.operation == "propose" then
              && Added(env, g, g', if e.memoryId == "" then "memory proposal" else e.memoryId, "propose_memory")
              && g'.proposals[|g.proposals|].kind == Memory && g'.proposals[|g.proposals|].meta == NO_META
              && g'.proposals[|g.proposals|].reasons == ["memory proposal requires review"]
            else g' == g
  {
    assert Reduce(env, g, e) == Ok(ReduceMemory(env, g, e));
  }

  /** A plan is filed last, and waits for review unless it says otherwise itself. */
  lemma PlanAddedExactly(env: Env, g: Gov, e: Event)
    requires e.typ == "tool_plan"
    ensures Reduce(env, g, e).Ok?
    ensures var g' := Reduce(env, g, e).value;
            if e.plan.Some? then
              && |g'.plans| == |g.plans| + 1 && g'.plans[..|g.plans|] == g.plans
              && g'.proposals == g.proposals && g'.receipts == g.receipts && g'.agentMode == g.agentMode
              && var p, filed := e.plan.value, g'.plans[|g.plans|];
              && filed.status == "pending_review"
              && filed.review == (if p.review.None? then Some(Pending) else p.review)
              && filed.(status := p.status, review := p.review) == p
            else g' == g
  {
    assert Reduce(env, g, e) == Ok(ReducePlan(g, e));
  }

  // ---------------------------------------------------------------- receipts

  /** A request to execute proposal `i` files one receipt, last, and changes nothing else. */
  lemma ExecutionExactly(env: Env, g: Gov, e: Event, i: nat)
    requires e.typ == "execution_request" && FirstProposal(g.proposals, i, e.proposalId)
    ensures Reduce(env, g, e).Ok?
    ensures var g' := Reduce(env, g, e).value;
            && |g'.receipts| == |g.receipts| + 1 && g'.receipts[..|g.receipts|] == g.receipts
            && g' == g.(receipts := g'.receipts, externalActionExecuted := false)
            && Answers(g.proposals[i], e, g'.receipts[|g.receipts|])
            && Outcomes(env, g.proposals[i], e, g'.receipts[|g.receipts|])
            && g'.receipts[|g.receipts|].id
               == ReceiptId(env, |g.receipts|, e.proposalId, g'.receipts[|g.receipts|].status,
                            g'.receipts[|g.receipts|].createdAt)
  {
    assert FindProposal(g.proposals, e.proposalId) == i;
    assert Reduce(env, g, e) == Ok(ReduceExecution(env, g, e));
    ReceiptSays(env, |g.receipts|, g.proposals[i], e);
  }

  lemma ReceiptSays(env: Env, index: nat, p: Proposal, e: Event)
    requires p.id == e.proposalId
    ensures var r := BuildReceipt(env, index, p, EventTime(e), e.reason, e.dryRun, e.output);
            Answers(p, e, r) && Outcomes(env, p, e, r) && r.id == ReceiptId(env, index, p.id, r.status, r.createdAt)
  {
  }

  lemma ExecutionOfNothing(env: Env, g: Gov, e: Event)
    requires e.typ == "execution_request" && forall k :: 0 <= k < |g.proposals| ==> g.proposals[k].id != e.proposalId
    ensures Reduce(env, g, e) == Ok(g)
  {
    assert FindProposal(g.proposals, e.proposalId) == |g.proposals|;
    assert Reduce(env, g, e) == Ok(ReduceExecution(env, g, e));
  }

  /** The receipt says which proposal it is for, as it stood, and when and why it was asked. */
  ghost predicate Answers(p: Proposal, e: Event, r: Receipt) {
    && r.proposalId == p.id == e.proposalId && r.toolId == p.meta.toolId && r.intent == p.intent
    && r.review == p.review && r.reason == OrElse(e.reason, "")
    && r.createdAt == if e.at.Some? && e.at.value != "" then e.at else e.timestamp
  }

  /** The five ways an execution can go.  Only an approved proposal for one of the three
      read-only tools with something read is executed, and only then is there output. */
  ghost predicate Outcomes(env: Env, p: Proposal, e: Event, r: Receipt) {
    var read := p.review == Approved && e.output.Some? && e.output.value != map[] && p.meta.toolId.Some?
                && p.meta.toolId.value in {"time.now", "git.status", "filesystem.read"};
    var harmless := p.review == Approved && p.meta.dryRunAvailable && p.meta.sideEffectClass == Some("none");
    && (r.status == "blocked_unreviewed" <==> p.review == Pending)
    && (r.status == "blocked_denied" <==> p.review == Denied)
    && (r.status == "executed_read_only" <==> read)
    && (r.status == "dry_run_only_not_executed" <==> harmless && !read)
    && (r.status == "blocked_side_effect" <==> p.review == Approved && !read && !harmless)
    && r.output == (if read then e.output else None)
    && r.outputHash == (if read then Some(Short(env.hashOutput(e.output.value), 16)) else None)
    && r.dryRun == if harmless && !read && e.dryRun.Some? && e.dryRun.value != map[] then e.dryRun else None
  }

  /** Receipts are only ever added, and their ids never repeat, whatever the digest is. */
  lemma ReceiptIdsNeverRepeat(env: Env, log: seq<Event>, i: nat, j: nat)
    requires i < |Final(env, log).receipts| && j < |Final(env, log).receipts|
    ensures Final(env, log).receipts[i].id == Final(env, log).receipts[j].id <==> i == j
  {
    IssuedHasSlot(env, log, i);
    IssuedHasSlot(env, log, j);
    var a, b := Final(env, log).receipts[i].id, Final(env, log).receipts[j].id;
    if a == b { ReceiptSlotUnique(a, i, j); }
  }

  lemma IssuedHasSlot(env: Env, log: seq<Event>, n: nat)
    requires n < |Final(env, log).receipts|
    ensures ReceiptSlot(n) <= Final(env, log).receipts[n].id
  {
    var k, i := ReceiptTraces(env, log, n);
    BuiltReceiptSlot(env, n, Final(env, log[..k]).proposals[i], log[k]);
  }

  lemma BuiltReceiptSlot(env: Env, n: nat, p: Proposal, e: Event)
    ensures ReceiptSlot(n) <= BuildReceipt(env, n, p, EventTime(e), e.reason, e.dryRun, e.output).id
  {
    var r := BuildReceipt(env, n, p, EventTime(e), e.reason, e.dryRun, e.output);
    PlanExecuting.ReceiptHasSlot(env, n, p.id, r.status, r.createdAt);
  }

  // ------------------------------------------------------------------- ids

  /** The number in decimal, filled up with zeros to this width and no further. */
  ghost predicate Numbered(text: Text, n: nat, width: nat) {
    && Digits(text) && Parse(text) == n && |text| >= width
    && (|text| > width ==> text[0] != '0')
  }

  lemma {:induction false} DecimalExactly(n: nat)
    ensures Numbered(Decimal(n), n, 1) && (n > 0 ==> Decimal(n)[0] != '0')
  {
    ParseDecimal(n);
    if n >= 10 { DecimalExactly(n / 10); }
  }

  lemma Pad4Exactly(n: nat)
    ensures Numbered(Pad4(n), n, 4)
  {
    DecimalExactly(n);
    ParsePad4(n);
  }

  ghost predicate FirstTen(digest: Text, whole: Text) {
    digest <= whole && |digest| == if |whole| <= 10 then |whole| else 10
  }

  /** A proposal is numbered from one, in at least four digits, and named by the first ten
      letters of the digest of its place, its class and its intent. */
  lemma ProposalIdExactly(env: Env, index: nat, intent: Text, cls: Text)
    returns (number: Text, place: Text, digest: Text)
    ensures Numbered(number, index + 1, 4) && Numbered(place, index, 1)
    ensures FirstTen(digest, env.hash(place + ":" + cls + ":" + intent))
    ensures ProposalId(env, index, intent, cls) == "proposal_" + number + "_" + digest
  {
    Pad4Exactly(index + 1);
    DecimalExactly(index);
    number, place := Pad4(index + 1), Decimal(index);
    digest := Short(env.hash(place + ":" + cls + ":" + intent), 10);
  }

  /** A receipt likewise, by its place, its proposal, its status and the time. */
  lemma ReceiptIdExactly(env: Env, index: nat, proposalId: Text, status: Text, at: Option<Text>)
    returns (number: Text, place: Text, digest: Text)
    ensures Numbered(number, index + 1, 4) && Numbered(place, index, 1)
    ensures FirstTen(digest, env.hash(place + ":" + proposalId + ":" + status + ":" + OrElse(at, "")))
    ensures ReceiptId(env, index, proposalId, status, at) == "execution_" + number + "_" + digest
  {
    Pad4Exactly(index + 1);
    DecimalExactly(index);
    number, place := Pad4(index + 1), Decimal(index);
    digest := Short(env.hash(place + ":" + proposalId + ":" + status + ":" + OrElse(at, "")), 10);
  }

  // --------------------------------------------------------------- the mode

  ghost predicate TurnsMode(e: Event) {
    e.typ == "button_event" && e.control == "am_fm"
  }

  /** Only the band button changes the mode. */
  lemma ModeStep(env: Env, g: Gov, e: Event)
    requires Reduce(env, g, e).Ok?
    ensures Reduce(env, g, e).value.agentMode
            == if TurnsMode(e) then e.value in {"fm", "agent"} else g.agentMode
  {
    if e.typ == "user_intent" {
      IntentKeepsMode(env, g, e);
    } else if e.typ in PLAN_EVENTS {
      PlanEventsKeepMode(g, e);
    } else {
      OthersKeepMode(env, g, e);
    }
  }

  lemma IntentKeepsMode(env: Env, g: Gov, e: Event)
    ensures ReduceIntent(env, g, e).Ok? ==> ReduceIntent(env, g, e).value.agentMode == g.agentMode
  {
  }

  lemma PlanEventsKeepMode(g: Gov, e: Event)
    ensures ReducePlanEvent(g, e).agentMode == g.agentMode
  {
  }

  lemma OthersKeepMode(env: Env, g: Gov, e: Event)
    ensures ReduceOther(env, g, e).agentMode == if TurnsMode(e) then e.value in {"fm", "agent"} else g.agentMode
  {
  }

  /** The band button was last turned to "fm" or "agent". */
  ghost predicate TurnedToAgent(log: seq<Event>) {
    exists k :: 0 <= k < |log| && TurnsMode(log[k]) && log[k].value in {"fm", "agent"}
                && forall m :: k < m < |log| ==> !TurnsMode(log[m])
  }

  lemma TurnedStep(log: seq<Event>, e: Event)
    ensures TurnedToAgent(log + [e]) <==> if TurnsMode(e) then e.value in {"fm", "agent"} else TurnedToAgent(log)
  {
    var longer := log + [e];
    assert longer[|log|] == e;
    if TurnedToAgent(log) && !TurnsMode(e) {
      var k :| 0 <= k < |log| && TurnsMode(log[k]) && log[k].value in {"fm", "agent"}
               && forall m :: k < m < |log| ==> !TurnsMode(log[m]);
      assert TurnsMode(longer[k]);
    }
    if TurnedToAgent(longer) && !TurnsMode(e) {
      var k :| 0 <= k < |longer| && TurnsMode(longer[k]) && longer[k].value in {"fm", "agent"}
               && forall m :: k < m < |longer| ==> !TurnsMode(longer[m]);
      assert forall m :: k < m < |log| ==> longer[m] == log[m];
      assert TurnsMode(log[k]);
    }
  }

  /** The mode is what the last use of the band button set it to: agent mode after "fm" or
      "agent", and not before the first use. */
  lemma {:induction false} ModeIsLastSet(env: Env, log: seq<Event>)
    ensures Final(env, log).agentMode <==> TurnedToAgent(log)
    decreases |log|
  {
    if log != [] {
      var n := |log| - 1;
      var before, e := Final(env, log[..n]), log[n];
      ModeIsLastSet(env, log[..n]);
      assert log[..n] + [e] == log;
      TurnedStep(log[..n], e);
      ModeOf(env, before, e);
    }
  }

  lemma ModeOf(env: Env, g: Gov, e: Event)
    ensures TurnsMode(e) ==> Reduce(env, g, e).Ok?
    ensures Reduce(env, g, e).Ok? ==>
              Reduce(env, g, e).value.agentMode == if TurnsMode(e) then e.value in {"fm", "agent"} else g.agentMode
  {
    if Reduce(env, g, e).Ok? { ModeStep(env, g, e); }
  }

  // ---------------------------------------------------------- all other events

  /** The band button, the three toggles, and every event of another kind. */
  lemma OthersExactly(env: Env, g: Gov, e: Event)
    requires e.typ !in {"user_intent", "memory_event", "proposal_review", "execution_request", "tool_plan",
                        "tool_plan_review", "tool_plan_step_queue", "tool_plan_execution_request",
                        "tool_plan_result_binding"}
    ensures Reduce(env, g, e)
            == Ok(if TurnsMode(e) then g.(agentMode := e.value in {"fm", "agent"})
                  else if e.typ == "tool_control_toggle" && e.control in {"tool_usage", "boh_mcp", "project_atlas_mcp"}
                  then g.(externalActionExecuted := false)
                  else g)
  {
  }

  /** Along every log the state says that nothing external was done. */
  lemma NothingExternal(env: Env, log: seq<Event>)
    ensures !Final(env, log).externalActionExecuted
  {
    FinalOk(env, log);
  }
}
