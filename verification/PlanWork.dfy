/** What the plan handlers hand to the reducer: which proposals, which execution requests,
    which bindings, with what in them. */
module PlanWork {
  import opened Collections
  import opened Governance
  import opened GovernanceProofs
  import opened GovernanceEffects
  import opened ToolArguments
  import opened PlanRunner
  import opened PlanAnswers

  // --------------------------------------------------------------- proposals

  /** The class a tool's proposals are judged by. */
  ghost predicate ClassOf(tool: Tool, cls: Text) {
    if tool.id == "memory.propose" then cls == "propose_memory"
    else
      && (tool.sideEffect == "external_mutation" ==> cls == "external_action")
      && (tool.sideEffect == "read_only" || tool.sideEffect == "local_mutation" ==> cls == "modify_local")
      && (tool.sideEffect !in {"external_mutation", "read_only", "local_mutation"} ==> cls == "observe")
  }

  /** The intent event for a tool: refused when the arguments are; else it names the tool,
      what is kept of the arguments, and what the tool's manifest says of it. */
  lemma ProposalEventExactly(registry: Registry, toolId: Text, args: Args, reason: Text, agentMode: bool)
    ensures var (out, checked) := (ProposalEvent(registry, toolId, args, reason, agentMode),
                                   Validate(registry, toolId, args));
            if checked.Raised? then out == Raised(checked.error)
            else
              && out.Ok?
              && var (e, tool) := (out.value, registry[toolId]);
              && e.typ == "user_intent" && e.intent == (if reason == "" then "tool proposal: " + toolId else reason)
              && e.actionClass.Some? && ClassOf(tool, e.actionClass.value)
              && e.policy.Some? && e.policy.value.reasons[..3]
                 == ["tool risk=" + tool.risk, "side_effect=" + tool.sideEffect, "permission=" + tool.mode]
              && e.policy.value.reasons[3..]
                 == (if agentMode then ["Agent Mode can prepare tool proposals only"] else [])
              && e.meta.toolId == Some(toolId) && e.meta.toolArguments == Some(checked.value.arguments)
              && e.meta.riskClass == Some(tool.risk) && e.meta.sideEffectClass == Some(tool.sideEffect)
              && (e.meta.dryRunAvailable <==> tool.mode == "dry_run")
  {
    if Validate(registry, toolId, args).Ok? {
      var tool := registry[toolId];
      var three := ["tool risk=" + tool.risk, "side_effect=" + tool.sideEffect, "permission=" + tool.mode];
      var rest := if agentMode then ["Agent Mode can prepare tool proposals only"] else [];
      assert ToolReasons(tool, agentMode) == three + rest;
      assert (three + rest)[..3] == three && (three + rest)[3..] == rest;
    }
  }

  /** A working step without a proposal is proposed with its own tool and arguments, under
      the prefix, the plan's and the step's id and the step's reason; any other is passed
      over, and one whose arguments are refused stops the queueing. */
  lemma QueueNextExactly(desk: Desk, g: Gov, plan: Plan, s: PlanStep, prefix: Text, queued: seq<QueuedStep>)
    requires GovOk(g)
    ensures var (g', out) := QueueNext(desk, g, plan, s, prefix, queued);
            if !Works(s) || !Unqueued(s) then g' == g && out == Ok(queued)
            else
              var checked := Validate(desk.registry, s.toolId.value, s.arguments);
              if checked.Raised? then g' == g && out == Raised(checked.error)
              else
                && |g'.proposals| == |g.proposals| + 1 && g'.proposals[..|g.proposals|] == g.proposals
                && g'.plans == g.plans && g'.receipts == g.receipts
                && var p := g'.proposals[|g.proposals|];
                && p.review == Pending && p.meta.toolId == s.toolId
                && p.meta.toolArguments == Some(checked.value.arguments)
                && (prefix + "plan " + plan.id + " " + s.id + ": " + s.reason != "" ==>
                      p.intent == prefix + "plan " + plan.id + " " + s.id + ": " + s.reason)
                && out == Ok(queued + [QueuedStep(s.id, Some(p.id))])
  {
    if Works(s) && Unqueued(s) {
      var reason := StepReason(plan, s, prefix);
      ProposalEventExactly(desk.registry, s.toolId.value, s.arguments, reason, g.agentMode);
      var event := ProposalEvent(desk.registry, s.toolId.value, s.arguments, reason, g.agentMode);
      if event.Ok? {
        IntentFailsIff(desk.env, g, event.value);
        IntentExactly(desk.env, g, event.value, event.value.actionClass.value);
      }
    }
  }

  // -------------------------------------------------------------- executions

  /** The tool is one of the three that only read. */
  ghost predicate OnlyReads(p: Proposal) {
    || p.meta.toolId == Some("time.now") || p.meta.toolId == Some("git.status")
    || p.meta.toolId == Some("filesystem.read")
  }

  ghost predicate Harmless(p: Proposal) {
    p.meta.dryRunAvailable && p.meta.sideEffectClass == Some("none")
  }

  /** What the executor returned, if that is anything. */
  ghost function Content(result: Outcome<Output, ()>): Option<Output> {
    if result.Raised? || result.value == map[] then None else Some(result.value)
  }

  /** Nothing runs for a proposal that is not approved, nor for one whose tool neither only
      reads nor is harmless; what runs gets the proposal's arguments, and its result goes
      where it belongs.  An executor that raises makes no request. */
  lemma ExecutionEventExactly(desk: Desk, g: Gov, p: Proposal, reason: Text, now: Text)
    ensures var out := ExecutionEvent(desk, g, p, reason, now);
            var args := if p.meta.toolArguments.Some? then p.meta.toolArguments.value else map[];
            var runs := p.review == Approved && (OnlyReads(p) || Harmless(p));
            var result := if p.meta.toolId.Some? then desk.run(|g.receipts|, p.meta.toolId.value, args) else Raised(());
            && (out.Raised? <==> runs && result.Raised?)
            && (out.Ok? ==>
                  var e := out.value;
                  && e.typ == "execution_request" && e.proposalId == p.id && e.reason == Some(reason)
                  && e.at == Some(now)
                  && e.output == (if runs && OnlyReads(p) then Content(result) else None)
                  && e.dryRun == (if runs && !OnlyReads(p) then Content(result) else None))
  {
  }

  /** A step is executed when its proposal is the one in the queue with its id, approved,
      and no receipt is on the step yet. */
  lemma CandidateIff(queue: seq<Proposal>, s: PlanStep)
    requires QueueOk(queue)
    ensures ExecutionCandidate(s, queue) <==> !Unqueued(s) && ToExecute(queue, s)
  {
    StandsIff(queue, s, Approved);
    if s.proposalId.Some? {
      PlanInvariant.LookupIsFind(queue, s.proposalId.value);
    } else {
      PlanBinding.NoneNotFound(queue);
    }
  }

  // ---------------------------------------------------------------- bindings

  /** Receipt `r` is the one for the step: the one the step names, or, when it names none,
      the newest for its proposal. */
  ghost predicate ReceiptOf(receipts: seq<Receipt>, s: PlanStep, r: Receipt) {
    if s.receiptId.Some? && s.receiptId.value != "" then
      exists i :: 0 <= i < |receipts| && receipts[i] == r && r.id == s.receiptId.value
                  && forall k :: 0 <= k < i ==> receipts[k].id != s.receiptId.value
    else
      && !Unqueued(s)
      && exists i :: 0 <= i < |receipts| && receipts[i] == r && Some(r.proposalId) == s.proposalId
                     && forall k :: i < k < |receipts| ==> Some(receipts[k].proposalId) != s.proposalId
  }

  lemma {:induction false} NewestIs(receipts: seq<Receipt>, proposalId: Text)
    ensures var r := NewestReceipt(receipts, proposalId);
            if r.None? then forall k :: 0 <= k < |receipts| ==> receipts[k].proposalId != proposalId
            else exists i :: 0 <= i < |receipts| && receipts[i] == r.value && r.value.proposalId == proposalId
                             && forall k :: i < k < |receipts| ==> receipts[k].proposalId != proposalId
  {
    if receipts != [] {
      var n := |receipts| - 1;
      NewestIs(receipts[..n], proposalId);
      if receipts[n].proposalId == proposalId {
        assert receipts[n] == NewestReceipt(receipts, proposalId).value;
      } else if NewestReceipt(receipts, proposalId).Some? {
        var r := NewestReceipt(receipts, proposalId).value;
        var i :| 0 <= i < n && receipts[..n][i] == r
                 && forall k :: i < k < n ==> receipts[..n][k].proposalId != proposalId;
        assert receipts[i] == r && forall k :: i < k < n ==> receipts[k] == receipts[..n][k];
      } else {
        assert forall k :: 0 <= k < n ==> receipts[k] == receipts[..n][k];
      }
    }
  }

  lemma ReceiptForExactly(receipts: seq<Receipt>, s: PlanStep)
    ensures ReceiptFor(receipts, s).Some? ==> ReceiptOf(receipts, s, ReceiptFor(receipts, s).value)
    ensures ReceiptFor(receipts, s).None? ==> forall r :: !ReceiptOf(receipts, s, r)
  {
    if Truthy(s.receiptId) {
      var i := FindReceipt(receipts, s.receiptId.value);
      if i < |receipts| { assert receipts[i] == ReceiptFor(receipts, s).value; }
    } else if Truthy(s.proposalId) {
      NewestIs(receipts, s.proposalId.value);
    }
  }

  /** The step has a receipt that can be bound. */
  ghost predicate GivesResult(receipts: seq<Receipt>, s: PlanStep) {
    exists r :: ReceiptOf(receipts, s, r)
                && (r.status == "executed_read_only" || r.status == "dry_run_only_not_executed")
  }

  lemma OneReceipt(receipts: seq<Receipt>, s: PlanStep, a: Receipt, b: Receipt)
    requires ReceiptOf(receipts, s, a) && ReceiptOf(receipts, s, b)
    ensures a == b
  {
    if s.receiptId.Some? && s.receiptId.value != "" {
      var i :| 0 <= i < |receipts| && receipts[i] == a && a.id == s.receiptId.value
               && forall k :: 0 <= k < i ==> receipts[k].id != s.receiptId.value;
      var j :| 0 <= j < |receipts| && receipts[j] == b && b.id == s.receiptId.value
               && forall k :: 0 <= k < j ==> receipts[k].id != s.receiptId.value;
    } else {
      var i :| 0 <= i < |receipts| && receipts[i] == a && Some(a.proposalId) == s.proposalId
               && forall k :: i < k < |receipts| ==> Some(receipts[k].proposalId) != s.proposalId;
      var j :| 0 <= j < |receipts| && receipts[j] == b && Some(b.proposalId) == s.proposalId
               && forall k :: j < k < |receipts| ==> Some(receipts[k].proposalId) != s.proposalId;
    }
  }

  lemma GivesResultIff(receipts: seq<Receipt>, s: PlanStep)
    ensures IsSource(receipts, s) <==> GivesResult(receipts, s)
  {
    ReceiptForExactly(receipts, s);
    if r :| ReceiptOf(receipts, s, r) && (r.status == "executed_read_only" || r.status == "dry_run_only_not_executed") {
      OneReceipt(receipts, s, r, ReceiptFor(receipts, s).value);
    }
  }

  /** A summarizing step whose pending proposal, or itself, is marked for a result, or that
      has been given one before. */
  ghost predicate Wants(queue: seq<Proposal>, s: PlanStep) {
    && s.toolId == Some("text.summarize") && !Unqueued(s) && Stands(queue, s, Pending)
    && (Marked(s.arguments)
        || (s.boundArguments.Some? && s.boundArguments.value != map[])
        || exists i :: 0 <= i < |queue| && s.proposalId == Some(queue[i].id)
             && queue[i].meta.toolArguments.Some? && Marked(queue[i].meta.toolArguments.value))
  }

  lemma WantsIff(queue: seq<Proposal>, s: PlanStep)
    requires QueueOk(queue)
    ensures WantsBinding(s, queue) <==> Wants(queue, s)
  {
    if s.proposalId.Some? {
      var k := FindProposal(queue, s.proposalId.value);
      forall i | 0 <= i < |queue| && s.proposalId == Some(queue[i].id) ensures i == k { FindIs(queue, i); }
      MarkedIff(s.arguments);
      if k < |queue| && queue[k].meta.toolArguments.Some? { MarkedIff(queue[k].meta.toolArguments.value); }
    }
  }

  /** Step `i` is the last up to step `j` that gives a result. */
  ghost predicate LastSource(receipts: seq<Receipt>, steps: seq<PlanStep>, j: int, i: int) {
    && 0 <= i <= j < |steps| && GivesResult(receipts, steps[i])
    && forall k :: i < k <= j ==> !GivesResult(receipts, steps[k])
  }

  lemma SourceStep(receipts: seq<Receipt>, steps: seq<PlanStep>, j: nat)
    requires j < |steps|
    ensures Source(receipts, steps[..j + 1])
            == if GivesResult(receipts, steps[j]) then Some(steps[j]) else Source(receipts, steps[..j])
  {
    assert steps[..j + 1][..j] == steps[..j];
    GivesResultIff(receipts, steps[j]);
  }

  /** The source for step `j`, when there is one. */
  ghost predicate SourceFor(receipts: seq<Receipt>, steps: seq<PlanStep>, j: int, s: Option<PlanStep>) {
    if s.None? then forall k :: 0 <= k <= j && k < |steps| ==> !GivesResult(receipts, steps[k])
    else exists i :: LastSource(receipts, steps, j, i) && s.value == steps[i]
  }

  lemma {:induction false} SourceExactly(receipts: seq<Receipt>, steps: seq<PlanStep>, j: nat)
    requires j < |steps|
    ensures SourceFor(receipts, steps, j, Source(receipts, steps[..j + 1]))
    decreases j
  {
    SourceStep(receipts, steps, j);
    if GivesResult(receipts, steps[j]) {
      assert LastSource(receipts, steps, j, j);
    } else if j > 0 {
      SourceExactly(receipts, steps, j - 1);
      SourceSkips(receipts, steps, j, Source(receipts, steps[..j]));
    } else {
      assert Source(receipts, steps[..0]).None?;
    }
  }

  lemma SourceSkips(receipts: seq<Receipt>, steps: seq<PlanStep>, j: nat, s: Option<PlanStep>)
    requires 0 < j < |steps| && !GivesResult(receipts, steps[j]) && SourceFor(receipts, steps, j - 1, s)
    ensures SourceFor(receipts, steps, j, s)
  {
    if s.Some? {
      var i :| LastSource(receipts, steps, j - 1, i) && s.value == steps[i];
      assert LastSource(receipts, steps, j, i);
    }
  }

  /** The binding made for a step: for its proposal, from step `source`'s receipt, whose
      summary, cut to 900 characters, is to be put in at most 48 words. */
  ghost predicate BindsFrom(desk: Desk, receipts: seq<Receipt>, source: PlanStep, s: PlanStep, b: Binding) {
    exists r :: ReceiptOf(receipts, source, r)
      && Some(b.proposalId) == s.proposalId && b.sourceStepId == source.id && b.sourceReceiptId == r.id
      && b.sourceOutputHash == r.outputHash && b.arguments.Keys == {"text", "max_words"}
      && b.arguments["max_words"] == Int(48)
      && b.arguments["text"].Str? && b.arguments["text"].s <= desk.summary(r)
      && |b.arguments["text"].s| == if |desk.summary(r)| <= 900 then |desk.summary(r)| else 900
  }

  lemma BindingFromExactly(desk: Desk, receipts: seq<Receipt>, source: PlanStep, s: PlanStep)
    requires IsSource(receipts, source) && s.proposalId.Some?
    ensures BindsFrom(desk, receipts, source, s, BindingFrom(desk, receipts, source, s.proposalId.value))
  {
    ReceiptForExactly(receipts, source);
    var r := ReceiptFor(receipts, source).value;
    assert ReceiptOf(receipts, source, r);
  }

  /** Step `j` gets a binding: it wants one, and some step up to it gives a result. */
  ghost predicate GetsBinding(desk: Desk, g: Gov, steps: seq<PlanStep>, j: int) {
    && 0 <= j < |steps| && Wants(g.proposals, steps[j])
    && exists k :: 0 <= k <= j && GivesResult(g.receipts, steps[k])
  }

  /** Binding `x` is for step `idx[x]`, from the last step up to it that gives a result. */
  ghost predicate BindingAt(desk: Desk, g: Gov, steps: seq<PlanStep>, bindings: seq<Binding>, idx: seq<nat>, x: int) {
    0 <= x < |idx| && x < |bindings| && idx[x] < |steps| ==>
      exists i :: LastSource(g.receipts, steps, idx[x], i)
                  && BindsFrom(desk, g.receipts, steps[i], steps[idx[x]], bindings[x])
  }

  /** The bindings made: one for each step that gets one, in plan order. */
  lemma {:induction false} BindingsExactly(desk: Desk, g: Gov, steps: seq<PlanStep>, n: nat) returns (idx: seq<nat>)
    requires QueueOk(g.proposals) && n <= |steps|
    ensures var bindings := Bindings(desk, g, steps[..n]);
            && Picks(idx, n) && |idx| == |bindings|
            && (forall x {:trigger BindingAt(desk, g, steps, bindings, idx, x)} ::
                  BindingAt(desk, g, steps, bindings, idx, x))
            && (forall j :: 0 <= j < n ==> (j in idx <==> GetsBinding(desk, g, steps, j)))
    decreases n
  {
    idx := [];
    if n > 0 {
      var rest := BindingsExactly(desk, g, steps, n - 1);
      assert steps[..n][..n - 1] == steps[..n - 1];
      idx := NextBinding(desk, g, steps, n - 1, rest);
    }
  }

  lemma NextBinding(desk: Desk, g: Gov, steps: seq<PlanStep>, n: nat, rest: seq<nat>) returns (idx: seq<nat>)
    requires QueueOk(g.proposals) && n < |steps|
    requires var before := Bindings(desk, g, steps[..n]);
             && Picks(rest, n) && |rest| == |before|
             && (forall x {:trigger BindingAt(desk, g, steps, before, rest, x)} ::
                   BindingAt(desk, g, steps, before, rest, x))
             && (forall j :: 0 <= j < n ==> (j in rest <==> GetsBinding(desk, g, steps, j)))
    ensures var bindings := Bindings(desk, g, steps[..n + 1]);
            && Picks(idx, n + 1) && |idx| == |bindings|
            && (forall x {:trigger BindingAt(desk, g, steps, bindings, idx, x)} ::
                  BindingAt(desk, g, steps, bindings, idx, x))
            && (forall j :: 0 <= j < n + 1 ==> (j in idx <==> GetsBinding(desk, g, steps, j)))
  {
    assert steps[..n + 1][..n] == steps[..n] && steps[..n + 1][n] == steps[n];
    var before, bindings := Bindings(desk, g, steps[..n]), Bindings(desk, g, steps[..n + 1]);
    WantsIff(g.proposals, steps[n]);
    SourceExactly(g.receipts, steps, n);
    SourceIsSource(g.receipts, steps[..n + 1]);
    var source := Source(g.receipts, steps[..n + 1]);
    if WantsBinding(steps[n], g.proposals) && source.Some? {
      idx := rest + [n];
      BindingFromExactly(desk, g.receipts, source.value, steps[n]);
      forall x ensures BindingAt(desk, g, steps, bindings, idx, x) {
        assert BindingAt(desk, g, steps, before, rest, x);
      }
      GetsOne(desk, g, steps, n, source.value);
    } else {
      idx := rest;
      assert bindings == before;
    }
  }

  lemma GetsOne(desk: Desk, g: Gov, steps: seq<PlanStep>, n: nat, source: PlanStep)
    requires n < |steps| && Wants(g.proposals, steps[n])
    requires exists i :: LastSource(g.receipts, steps, n, i) && source == steps[i]
    ensures GetsBinding(desk, g, steps, n)
  {
  }

  // ----------------------------------------------------------------- answers

  /** What the three handlers answer: `NotFound` for a plan there is none of, `Conflict` for
      one that is not approved, `BadRequest` when a step is refused or an executor raises,
      `Nothing` when no step is up, and `Done` otherwise. */
  lemma AnswersExactly(desk: Desk, g: Gov, planId: Text, prefix: Text, reason: Text, now: Text)
    ensures var queue, execute, bind := QueueSteps(desk, g, planId, prefix, now).1,
                RequestExecution(desk, g, planId, reason, now).1, BindResults(desk, g, planId, now).1;
            if forall k :: 0 <= k < |g.plans| ==> g.plans[k].id != planId then queue == execute == bind == NotFound
            else
              forall k :: FirstPlan(g.plans, k, planId) ==>
                var plan := g.plans[k];
                if plan.review != Some(Approved) then queue == execute == bind == Conflict
                else
                  var queued := QueueProposals(desk, g, plan, plan.steps, prefix).1;
                  var executed := ExecuteProposals(desk, g, plan, plan.steps, reason, now).1;
                  && queue == (if queued.Raised? then BadRequest else if queued.value == [] then Nothing else Done)
                  && execute
                     == (if executed.Raised? then BadRequest else if executed.value == [] then Nothing else Done)
                  && bind == (if Bindings(desk, g, plan.steps) == [] then Nothing else Done)
  {
    var i := FindPlan(g.plans, planId);
    forall k | FirstPlan(g.plans, k, planId) ensures k == i {}
  }
}
