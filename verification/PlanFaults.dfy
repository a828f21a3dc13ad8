/** Two things the plan runner does that its answers do not say, each shown on a log that
    reaches it: a plan called complete with a step never approved, and an announced
    binding that is never made. */
module PlanFaults {
  import opened Collections
  import opened Governance
  import opened GovernanceProofs
  import opened GovernanceTheorems
  import opened ToolArguments
  import opened PlanRunner
  import opened PlanInvariant
  import opened PlanProgress
  import opened PlanExecuting
  import opened PlanBinding
  import opened PlanAdvance
  import opened PlanCompletion
  import opened PlanLife
  import opened PlanStalls
  import opened TaskPlanner

  // ----------------------------------------- a plan posted, approved and queued

  /** The two events that bring an approved plan about. */
  predicate PostedAndApproved(post: Event, approval: Event, plan: Plan) {
    && post.typ == "tool_plan" && post.plan == Some(plan) && plan.review.None? && plan.id != ""
    && approval.typ == "tool_plan_review" && approval.planId == plan.id
    && Lower(approval.decision) == "approved"
  }

  /** The state after the two events and a call of the queue handler. */
  function Queued(desk: Desk, post: Event, approval: Event, planId: Text, prefix: Text, now: Text): Gov {
    QueueSteps(desk, Final(desk.env, [post, approval]), planId, prefix, now).0
  }

  /** A plan nobody has worked on, whose ids increase and whose arguments re-validate. */
  ghost predicate Fresh(registry: Registry, steps: seq<PlanStep>) {
    RegistryOk(registry) && ShapeOk(registry, steps) && forall i :: 0 <= i < |steps| ==> Untried(steps[i])
  }

  lemma PostedPlan(env: Env, post: Event, plan: Plan)
    requires post.typ == "tool_plan" && post.plan == Some(plan) && plan.review.None?
    ensures var g := Final(env, [post]);
            && g.plans == [plan.(review := Some(Pending), status := "pending_review")]
            && g.proposals == [] && g.receipts == []
  {
    FinalOfOne(env, post);
    PostReduces(env, BASELINE, post);
    var pending := plan.(review := Some(Pending), status := "pending_review");
    assert BASELINE.plans + [pending] == [pending];
  }

  lemma FinalOfOne(env: Env, e: Event)
    ensures Final(env, [e]) == if Reduce(env, BASELINE, e).Ok? then Reduce(env, BASELINE, e).value else BASELINE
  {
    var log := [e];
    assert log[..0] == [] && After(env, BASELINE, log[..0]) == BASELINE && log[0] == e;
  }

  lemma PostReduces(env: Env, g: Gov, post: Event)
    requires post.typ == "tool_plan"
    ensures Reduce(env, g, post) == Ok(ReducePlan(g, post))
  {
  }

  lemma ApprovedPlan(desk: Desk, post: Event, approval: Event, plan: Plan)
    requires PostedAndApproved(post, approval, plan) && Fresh(desk.registry, plan.steps)
    ensures var g := Final(desk.env, [post, approval]);
            && PlanInv(desk, g, 0) && |g.plans| == 1 && g.plans[0].id == plan.id && g.plans[0].steps == plan.steps
            && g.proposals == [] && g.receipts == []
  {
    PostedPlan(desk.env, post, plan);
    var g := Final(desk.env, [post]);
    assert [post] + [approval] == [post, approval] && [post, approval][..1] == [post];
    ApprovalEstablishes(desk, [post], 0, approval);
    FinalOk(desk.env, [post]);
    ApprovalEffect(desk.env, g, approval, 0);
    PlanEventKeeps(g, approval);
  }

  /** Where a plan stands right after its steps were queued. */
  ghost predicate JustQueued(desk: Desk, g: Gov, steps: seq<PlanStep>) {
    && PlanInv(desk, g, 0) && |g.plans| == 1 && StepsProgress(steps, g.plans[0].steps) && g.receipts == []
    && (forall i :: 0 <= i < |g.proposals| ==> g.proposals[i].review == Pending)
    && (forall i ::
          0 <= i < |steps| ==> g.plans[0].steps[i].boundArguments.None? && !QueueCandidate(g.plans[0].steps[i]))
  }

  lemma QueuedPlan(desk: Desk, post: Event, approval: Event, plan: Plan, i: nat, prefix: Text, now: Text)
    requires PostedAndApproved(post, approval, plan) && Fresh(desk.registry, plan.steps)
    requires i < |plan.steps| && Eligible(plan.steps[i])
    ensures var g := Queued(desk, post, approval, plan.id, prefix, now);
            JustQueued(desk, g, plan.steps) && g.plans[0].id == plan.id
    ensures QueueSteps(desk, Final(desk.env, [post, approval]), plan.id, prefix, now).1 == Done
  {
    ApprovedPlan(desk, post, approval, plan);
    var g := Final(desk.env, [post, approval]);
    QueueAdvances(desk, g, 0, i, prefix, now);
    var g' := Queued(desk, post, approval, plan.id, prefix, now);
    forall m | 0 <= m < |g'.proposals| ensures g'.proposals[m].review == Pending {
      assert SameReview(g.proposals, g'.proposals, m);
    }
  }

  lemma NothingHasRun(desk: Desk, g: Gov, steps: seq<PlanStep>, i: nat)
    requires JustQueued(desk, g, steps) && i < |steps|
    ensures !HasRun(g.plans[0].steps[i])
  {
    assert StepOk(desk.registry, g, g.plans[0].steps, i);
  }

  /** Right after queueing, a step that waits for a result is skipped by the runner. */
  lemma WaitingIsSkipped(desk: Desk, g: Gov, steps: seq<PlanStep>, i: nat)
    requires JustQueued(desk, g, steps) && i < |steps| && Eligible(steps[i]) && Dependent(steps[i])
    ensures var now := g.plans[0].steps; Stuck(now[i], g.proposals) && Settled(g.proposals, now, now[i])
  {
    var now := g.plans[0].steps;
    var s := now[i];
    assert Progresses(steps[i], s) && StepOk(desk.registry, g, now, i);
    LookupIsFind(g.proposals, s.proposalId.value);
    if HasPrior(s, EligibleSteps(now)) {
      var before := PriorGives(s, EligibleSteps(now));
      var j := EligiblePosition(now, before);
      NothingHasRun(desk, g, steps, j);
    }
  }

  // --------------------------------------------------- complete without approval

  /** Plan `k` is the planner's plan for the task, further along. */
  ghost predicate PlanOfTask(desk: Desk, g: Gov, k: nat, task: Text, found: Found, agentMode: bool) {
    PlanInv(desk, g, k) && StepsProgress(TaskSteps(desk.registry, task, found, agentMode), g.plans[k].steps)
  }

  lemma VainHasNoPrior(desk: Desk, g: Gov, k: nat, task: Text, found: Found, agentMode: bool)
    requires PlanOfTask(desk, g, k, task, found, agentMode) && WaitsInVain(desk.registry, task, found)
    requires |ReadSteps(task, found)| < |g.plans[k].steps|
    ensures var steps := g.plans[k].steps; !HasPrior(steps[|ReadSteps(task, found)|], EligibleSteps(steps))
  {
    var planned, steps := TaskSteps(desk.registry, task, found, agentMode), g.plans[k].steps;
    var m := |ReadSteps(task, found)|;
    if HasPrior(steps[m], EligibleSteps(steps)) {
      var before := PriorGives(steps[m], EligibleSteps(steps));
      var j := EligiblePosition(steps, before);
      EarlierIsBefore(desk.registry, steps, m, j);
      assert Progresses(planned[j], steps[j]);
      ReadsSomethingIff(desk.registry, task, found, agentMode);
    }
  }

  lemma EarlierIsBefore(registry: Registry, steps: seq<PlanStep>, m: nat, j: nat)
    requires ShapeOk(registry, steps) && m < |steps| && j < |steps| && Before(steps[j].id, steps[m].id)
    ensures j < m
  {
    assert Increasing(steps, m, j);
    if m <= j {
      NotBeforeItself(steps[j].id);
      BeforeAntisymmetric(steps[j].id, steps[m].id);
    }
  }

  lemma OthersNeverStuck(desk: Desk, g: Gov, k: nat, task: Text, found: Found, agentMode: bool, i: nat)
    requires PlanOfTask(desk, g, k, task, found, agentMode)
    requires i < |g.plans[k].steps| && Eligible(g.plans[k].steps[i]) && i != |ReadSteps(task, found)|
    ensures !Stuck(g.plans[k].steps[i], g.proposals)
  {
    var planned, s := TaskSteps(desk.registry, task, found, agentMode), g.plans[k].steps[i];
    assert Progresses(planned[i], s);
    OnlySummaryWaits(desk.registry, task, found, agentMode, i);
    assert StepOk(desk.registry, g, g.plans[k].steps, i);
    NoneNotFound(g.proposals);
    if s.proposalId.Some? { LookupIsFind(g.proposals, s.proposalId.value); }
  }

  /** A task that waits in vain: whatever else its plan holds, the runner calls the plan
      complete as soon as the other eligible steps are done, with the summary's proposal
      still pending. */
  lemma SummaryNeverMissed(desk: Desk, g: Gov, k: nat, task: Text, found: Found, agentMode: bool)
    requires PlanOfTask(desk, g, k, task, found, agentMode) && WaitsInVain(desk.registry, task, found)
    requires var m := |ReadSteps(task, found)|; m < |g.plans[k].steps| && Stuck(g.plans[k].steps[m], g.proposals)
    ensures var steps := g.plans[k].steps;
            NextAction(g.plans[k], g.proposals).Complete?
            <==> forall i ::
                   0 <= i < |steps| && Eligible(steps[i]) && i != |ReadSteps(task, found)| ==>
                       StepDone(g.proposals, steps[i])
  {
    var steps, m := g.plans[k].steps, |ReadSteps(task, found)|;
    VainHasNoPrior(desk, g, k, task, found, agentMode);
    forall i | 0 <= i < |steps| && Eligible(steps[i]) && i != m ensures !Stuck(steps[i], g.proposals) {
      OthersNeverStuck(desk, g, k, task, found, agentMode, i);
    }
    CompleteIff(desk, g, k);
  }

  /** The task asks for a summary and for nothing else. */
  predicate SummaryOnly(task: Text, found: Found) {
    var t := Lower(task);
    WantsSummary(t) && !WantsStatus(t) && !Truthy(found.path) && !WantsFetch(t) && !WantsLibrary(t) && !WantsMutation(t)
  }

  lemma OneWaitingStep(registry: Registry, task: Text, found: Found, agentMode: bool)
    requires WaitsInVain(registry, task, found) && SummaryOnly(task, found)
    ensures var steps := TaskSteps(registry, task, found, agentMode);
            |steps| == 1 && Eligible(steps[0]) && Dependent(steps[0])
  {
    assert CandidateSteps(task, found) == [Summarize(task, found)];
    OnlySummaryWaits(registry, task, found, agentMode, 0);
  }

  /** From the task to the fault: a plan for a task that asks for a summary only and waits
      in vain is planned, approved and queued, and is then called complete with its one
      proposal still pending. */
  lemma CompleteTooEarly(desk: Desk, task: Text, found: Found, agentMode: bool, post: Event, approval: Event,
                         plan: Plan, prefix: Text, now: Text)
    requires RegistryOk(desk.registry) && WaitsInVain(desk.registry, task, found) && SummaryOnly(task, found)
    requires PostedAndApproved(post, approval, plan) && plan.steps == TaskSteps(desk.registry, task, found, agentMode)
    ensures var g := Queued(desk, post, approval, plan.id, prefix, now);
            && |g.plans| == 1 && |g.plans[0].steps| == 1 && Eligible(g.plans[0].steps[0])
            && NextAction(g.plans[0], g.proposals) == Complete
            && Lookup(g.proposals, g.plans[0].steps[0].proposalId).Some?
            && Lookup(g.proposals, g.plans[0].steps[0].proposalId).value.review == Pending
            && !AllDone(g.proposals, g.plans[0].steps)
  {
    OneWaitingStep(desk.registry, task, found, agentMode);
    PlannerShape(desk.registry, task, found, agentMode);
    QueuedPlan(desk, post, approval, plan, 0, prefix, now);
    var g := Queued(desk, post, approval, plan.id, prefix, now);
    OneStepComplete(desk, g, plan.steps);
  }

  lemma OneStepComplete(desk: Desk, g: Gov, steps: seq<PlanStep>)
    requires JustQueued(desk, g, steps) && |steps| == 1 && Eligible(steps[0]) && Dependent(steps[0])
    ensures Eligible(g.plans[0].steps[0]) && NextAction(g.plans[0], g.proposals) == Complete
    ensures Stuck(g.plans[0].steps[0], g.proposals) && !AllDone(g.proposals, g.plans[0].steps)
  {
    WaitingIsSkipped(desk, g, steps, 0);
    CompleteIff(desk, g, 0);
    assert Progresses(steps[0], g.plans[0].steps[0]) && StepOk(desk.registry, g, g.plans[0].steps, 0);
    LookupIsFind(g.proposals, g.plans[0].steps[0].proposalId.value);
  }

  // ------------------------------------------------------------- one such task

  function Manifest(id: Text, properties: map<Text, Option<Text>>, required: set<Text>, sideEffect: Text,
                    mode: Text): Tool {
    Tool(id, properties, required, false, "low", sideEffect, mode)
  }

  /** The tools the planner uses, as the program registers them; risk classes are immaterial here. */
  const BUILTIN: Registry := map[
    "git.status" := Manifest("git.status", map["repository" := Some("string")], {}, "read_only", "approved_read_only"),
    "filesystem.read" := Manifest("filesystem.read", map["path" := Some("string")], {"path"}, "read_only",
                                  "approved_read_only"),
    "text.summarize" := Manifest("text.summarize", map["text" := Some("string"), "max_words" := Some("integer")],
                                 {"text"}, "none", "dry_run"),
    "thinking.plan_outline" :=
      Manifest("thinking.plan_outline", map["task" := Some("string"), "max_steps" := Some("integer")], {"task"},
               "none", "dry_run"),
    "fetch.url_proposed" :=
      Manifest("fetch.url_proposed", map["url" := Some("string"), "method" := Some("string")], {"url"}, "read_only",
               "proposal_only"),
    "boh.retrieve_proposed" :=
      Manifest("boh.retrieve_proposed",
               map["query" := Some("string"), "mode" := Some("string"), "limit" := Some("integer")], {"query"},
               "read_only", "proposal_only")]

  /** The built-in tools serve the planner's own steps, so what waits in vain is a matter of
      the task. */
  lemma BuiltinServes()
    ensures RegistryOk(BUILTIN)
    ensures TakesText(BUILTIN, "git.status", "repository") && TakesText(BUILTIN, "filesystem.read", "path")
    ensures TakesText(BUILTIN, "text.summarize", "text") && TakesText(BUILTIN, "fetch.url_proposed", "url")
  {
    BuiltinIds();
    BuiltinReads();
    BuiltinSummarizes();
    BuiltinFetches();
  }

  lemma BuiltinIds()
    ensures RegistryOk(BUILTIN)
  {
  }

  lemma BuiltinReads()
    ensures TakesText(BUILTIN, "git.status", "repository") && TakesText(BUILTIN, "filesystem.read", "path")
  {
  }

  lemma BuiltinSummarizes()
    ensures TakesText(BUILTIN, "text.summarize", "text")
  {
  }

  lemma BuiltinFetches()
    ensures TakesText(BUILTIN, "fetch.url_proposed", "url")
  {
  }

  const QUOTING := "summarize <requires approved x>"

  lemma {:induction false} LowerFixed(s: Text)
    requires forall c :: c in s ==> !('A' <= c <= 'Z')
    ensures Lower(s) == s
  {
    if s != "" {
      assert s[0] in s && forall c :: c in s[1..] ==> c in s;
      LowerFixed(s[1..]);
    }
  }

  lemma {:induction false} MissingChar(s: Text, part: Text, c: char)
    requires c in part && c !in s
    ensures !Contains(s, part)
  {
    assert !(part <= s);
    if s != "" { MissingChar(s[1..], part, c); }
  }

  lemma {:induction false} ContainsHere(s: Text, part: Text, i: nat)
    requires i + |part| <= |s| && s[i..i + |part|] == part
    ensures Contains(s, part)
    decreases i
  {
    if i > 0 {
      assert s[1..][i - 1..i - 1 + |part|] == s[i..i + |part|];
      ContainsHere(s[1..], part, i - 1);
    } else {
      assert part <= s;
    }
  }

  const QUOTE := "summarize <requires approved"

  /** The text asks for a summary, quotes the marker, and has no letter of the words that
      would ask for anything else. */
  predicate Quotes(t: Text) {
    && QUOTE <= t && |t| <= 240 && (forall c :: c in t ==> !('A' <= c <= 'Z'))
    && ':' !in t && 't' !in t && 'h' !in t && 'b' !in t && 'f' !in t
  }

  lemma QuotesAsks(t: Text)
    requires Quotes(t)
    ensures Lower(t) == t && WantsSummary(t) && AfterColon(t) == t && Contains(Short(t, 240), MARKER)
  {
    LowerFixed(t);
    QuoteHolds(t);
    MissingChar(t, ":", ':');
  }

  lemma QuoteHolds(t: Text)
    requires QUOTE <= t
    ensures Contains(t, "summarize") && Contains(t, MARKER)
  {
    assert QUOTE[..9] == "summarize" && QUOTE[10..28] == MARKER;
    assert t[..9] == t[..28][..9] && t[10..28] == t[..28][10..28];
    ContainsHere(t, "summarize", 0);
    ContainsHere(t, MARKER, 10);
  }

  lemma QuotesReadsNothing(t: Text)
    requires Quotes(t)
    ensures !WantsStatus(t)
  {
    MissingChar(t, "git status", 't');
    MissingChar(t, "status", 't');
  }

  lemma QuotesFetchesNothing(t: Text)
    requires Quotes(t)
    ensures !WantsFetch(t) && !WantsLibrary(t)
  {
    MissingChar(t, "fetch ", 't');
    MissingChar(t, "http://", 't');
    MissingChar(t, "https://", 't');
    MissingChar(t, "boh", 'b');
    MissingChar(t, "library", 'b');
    MissingChar(t, "vault", 't');
  }

  lemma QuotesChangesNothing(t: Text)
    requires Quotes(t)
    ensures !WantsMutation(t)
  {
    MissingChar(t, "write", 't');
    MissingChar(t, "edit", 't');
    MissingChar(t, "modify", 'f');
    MissingChar(t, "delete", 't');
    MissingChar(t, "commit", 't');
    MissingChar(t, "push", 'h');
    MissingChar(t, "create file", 't');
  }

  lemma QuotesInVain(t: Text)
    requires Quotes(t)
    ensures WaitsInVain(BUILTIN, t, Found(None, None)) && SummaryOnly(t, Found(None, None))
  {
    QuotesAsks(t);
    QuotesReadsNothing(t);
    QuotesFetchesNothing(t);
    QuotesChangesNothing(t);
    BuiltinServes();
    TextIsPlannable(BUILTIN, "text.summarize", "text", t, "summarize provided text");
  }

  lemma QuotingQuotes()
    ensures Quotes(QUOTING)
  {
    QuotingLacks();
  }

  lemma QuotingLacks()
    ensures forall c :: c in QUOTING ==> !('A' <= c <= 'Z')
    ensures ':' !in QUOTING && 't' !in QUOTING && 'h' !in QUOTING && 'b' !in QUOTING && 'f' !in QUOTING
  {
  }

  /** A task the code receives: "summarize <requires approved x>" names no file and no
      address; its approved and queued plan is called complete with its proposal pending. */
  lemma QuotingTaskCompletesTooEarly(desk: Desk, agentMode: bool, post: Event, approval: Event, plan: Plan,
                                     prefix: Text, now: Text)
    requires desk.registry == BUILTIN && PostedAndApproved(post, approval, plan)
    requires plan.steps == TaskSteps(BUILTIN, QUOTING, Found(None, None), agentMode)
    ensures var g := Queued(desk, post, approval, plan.id, prefix, now);
            && |g.plans| == 1 && |g.plans[0].steps| == 1 && NextAction(g.plans[0], g.proposals) == Complete
            && Lookup(g.proposals, g.plans[0].steps[0].proposalId).Some?
            && Lookup(g.proposals, g.plans[0].steps[0].proposalId).value.review == Pending
  {
    BuiltinServes();
    QuotingQuotes();
    QuotesInVain(QUOTING);
    CompleteTooEarly(desk, QUOTING, Found(None, None), agentMode, post, approval, plan, prefix, now);
  }

  // --------------------------------------------- announced but never made

  /** A posted plan of two steps: one whose tool only ever gets blocked receipts, then a
      summary that waits for a result.  The planner builds no such plan. */
  ghost predicate BlockedThenWaiting(registry: Registry, steps: seq<PlanStep>) {
    && Fresh(registry, steps) && |steps| == 2 && Eligible(steps[0]) && Eligible(steps[1])
    && steps[0].toolId.value in registry && ToolStatus(registry[steps[0].toolId.value]) == "blocked_side_effect"
    && steps[0].toolId != Some("text.summarize") && Dependent(steps[1])
  }

  /** A human approves the first step's proposal. */
  predicate ApprovesFirst(g: Gov, review: Event) {
    && |g.plans| == 1 && |g.plans[0].steps| == 2 && review.typ == "proposal_review" && review.decision == "approved"
    && g.plans[0].steps[0].proposalId == Some(review.proposalId)
  }

  /** Where the plan stands after the approval: the first step may run, the second waits. */
  ghost predicate FirstApproved(desk: Desk, g: Gov, steps: seq<PlanStep>) {
    && PlanInv(desk, g, 0) && |g.plans| == 1 && |steps| == 2 && StepsProgress(steps, g.plans[0].steps)
    && ExecutionCandidate(g.plans[0].steps[0], g.proposals)
    && g.plans[0].steps[1].boundArguments.None? && Stuck(g.plans[0].steps[1], g.proposals)
  }

  lemma TwoProposals(desk: Desk, g: Gov, steps: seq<PlanStep>)
    requires JustQueued(desk, g, steps) && BlockedThenWaiting(desk.registry, steps)
    ensures var s, q := g.plans[0].steps, g.proposals;
            && s[0].proposalId.Some? && s[1].proposalId.Some? && s[0].receiptId.None?
            && FindProposal(q, s[0].proposalId.value) < |q| && FindProposal(q, s[1].proposalId.value) < |q|
            && FindProposal(q, s[0].proposalId.value) != FindProposal(q, s[1].proposalId.value)
  {
    var s := g.plans[0].steps;
    assert Progresses(steps[0], s[0]) && Progresses(steps[1], s[1]);
    assert StepOk(desk.registry, g, s, 0) && StepOk(desk.registry, g, s, 1);
  }

  lemma ReviewApproves(desk: Desk, g: Gov, review: Event, i: nat)
    requires GovOk(g) && i < |g.proposals| && g.proposals[i].review == Pending
    requires review.typ == "proposal_review" && review.decision == "approved" && review.proposalId == g.proposals[i].id
    ensures var out := Reduce(desk.env, g, review);
            && out.Ok? && |out.value.proposals| == |g.proposals| && out.value.proposals[i].review == Approved
            && out.value.proposals[i].id == g.proposals[i].id
            && forall j :: 0 <= j < |g.proposals| && j != i ==> out.value.proposals[j] == g.proposals[j]
  {
    FindIs(g.proposals, i);
    ReviewReduces(desk.env, g, review);
    assert Decision(review.decision) == Some(Approved);
  }

  lemma ReviewReduces(env: Env, g: Gov, review: Event)
    requires review.typ == "proposal_review"
    ensures Reduce(env, g, review) == Ok(ReduceReview(g, review))
  {
  }

  lemma FirstIsApproved(desk: Desk, g: Gov, steps: seq<PlanStep>, review: Event)
    requires JustQueued(desk, g, steps) && BlockedThenWaiting(desk.registry, steps) && ApprovesFirst(g, review)
    ensures FirstApproved(desk, Emit(desk, g, review), steps)
    ensures Emit(desk, g, review).plans == g.plans
  {
    TwoProposals(desk, g, steps);
    ReviewApproves(desk, g, review, FindProposal(g.proposals, review.proposalId));
    OutsideKeeps(desk, g, 0, review);
    QuietPlans(desk.env, g, review);
    var g' := Emit(desk, g, review);
    FirstMayRun(desk, g', g.plans[0].steps[0], review);
    SecondWaits(desk, g, g', steps);
  }

  lemma FirstMayRun(desk: Desk, g: Gov, s: PlanStep, review: Event)
    requires GovOk(g) && s.proposalId == Some(review.proposalId) && review.proposalId != "" && s.receiptId.None?
    requires exists i ::
               0 <= i < |g.proposals| && g.proposals[i].id == review.proposalId && g.proposals[i].review == Approved
    ensures ExecutionCandidate(s, g.proposals)
  {
    var i :| 0 <= i < |g.proposals| && g.proposals[i].id == review.proposalId && g.proposals[i].review == Approved;
    FindIs(g.proposals, i);
  }

  lemma SecondWaits(desk: Desk, g: Gov, g': Gov, steps: seq<PlanStep>)
    requires JustQueued(desk, g, steps) && BlockedThenWaiting(desk.registry, steps) && GovOk(g')
    requires var s := g.plans[0].steps[1];
             var j := if s.proposalId.Some? then FindProposal(g.proposals, s.proposalId.value) else 0;
             j < |g.proposals| == |g'.proposals| && g'.proposals[j] == g.proposals[j]
    ensures Stuck(g.plans[0].steps[1], g'.proposals)
  {
    var s := g.plans[0].steps[1];
    TwoProposals(desk, g, steps);
    FindIs(g'.proposals, FindProposal(g.proposals, s.proposalId.value));
    LookupIsFind(g'.proposals, s.proposalId.value);
    assert Progresses(steps[1], s);
  }

  /** The first step has a receipt nothing can be bound from; the second still waits and
      has no receipt. */
  ghost predicate FirstBlocked(desk: Desk, g: Gov, steps: seq<PlanStep>) {
    && PlanInv(desk, g, 0) && |g.plans| == 1 && |steps| == 2 && StepsProgress(steps, g.plans[0].steps)
    && Truthy(g.plans[0].steps[0].receiptId) && !IsSource(g.receipts, g.plans[0].steps[0])
    && Stuck(g.plans[0].steps[1], g.proposals) && g.plans[0].steps[1].receiptId.None?
  }

  lemma BlockedIsNoSource(desk: Desk, g: Gov, steps: seq<PlanStep>)
    requires PlanInv(desk, g, 0) && BlockedThenWaiting(desk.registry, steps) && StepsProgress(steps, g.plans[0].steps)
    requires g.plans[0].steps[0].receiptId.Some?
    ensures Truthy(g.plans[0].steps[0].receiptId) && !IsSource(g.receipts, g.plans[0].steps[0])
  {
    assert Progresses(steps[0], g.plans[0].steps[0]) && StepOk(desk.registry, g, g.plans[0].steps, 0);
  }

  lemma StuckHasNoReceipt(desk: Desk, g: Gov, i: nat)
    requires PlanInv(desk, g, 0) && i < |g.plans[0].steps| && Stuck(g.plans[0].steps[i], g.proposals)
    ensures g.plans[0].steps[i].proposalId.Some? && g.plans[0].steps[i].receiptId.None?
  {
    var s := g.plans[0].steps[i];
    assert StepOk(desk.registry, g, g.plans[0].steps, i);
    NoneNotFound(g.proposals);
    LookupIsFind(g.proposals, s.proposalId.value);
  }

  /** So it is after the execution handler ran. */
  lemma FirstHasRun(desk: Desk, g: Gov, steps: seq<PlanStep>, reason: Text, now: Text)
    requires NonFailing(desk) && FirstApproved(desk, g, steps) && BlockedThenWaiting(desk.registry, steps)
    ensures var g' := RequestExecution(desk, g, g.plans[0].id, reason, now).0;
            FirstBlocked(desk, g', steps) && g'.plans[0].id == g.plans[0].id
  {
    ExecutionAdvances(desk, g, 0, 0, reason, now);
    var g' := RequestExecution(desk, g, g.plans[0].id, reason, now).0;
    StillWaits(desk, g, g', steps);
    ProgressAgain(steps, g.plans[0].steps, g'.plans[0].steps);
    BlockedIsNoSource(desk, g', steps);
    StuckHasNoReceipt(desk, g', 1);
  }

  lemma ProgressAgain(a: seq<PlanStep>, b: seq<PlanStep>, c: seq<PlanStep>)
    requires StepsProgress(a, b) && StepsProgress(b, c)
    ensures StepsProgress(a, c)
  {
  }

  lemma StillWaits(desk: Desk, g: Gov, g': Gov, steps: seq<PlanStep>)
    requires FirstApproved(desk, g, steps) && |g'.plans| == 1 && StepsProgress(g.plans[0].steps, g'.plans[0].steps)
    requires g'.proposals == g.proposals && SameBound(g.plans[0].steps, g'.plans[0].steps)
    ensures Stuck(g'.plans[0].steps[1], g'.proposals)
  {
    var s, s' := g.plans[0].steps[1], g'.plans[0].steps[1];
    assert Progresses(s, s');
    NoneNotFound(g.proposals);
  }

  /** A step whose proposal is pending has no receipt it could be a source with. */
  lemma PendingIsNoSource(env: Env, log: seq<Event>, s: PlanStep)
    requires var g := Final(env, log);
             s.receiptId.None? && s.proposalId.Some? && Lookup(g.proposals, s.proposalId).Some?
             && Lookup(g.proposals, s.proposalId).value.review == Pending
    ensures !IsSource(Final(env, log).receipts, s)
  {
    var g := Final(env, log);
    FinalOk(env, log);
    LookupIsFind(g.proposals, s.proposalId.value);
    if IsSource(g.receipts, s) {
      var n := NewestIs(g.receipts, s.proposalId.value);
      var j, k, i := ExecutionTracesToApproval(env, log, n);
      FindIs(g.proposals, i);
    }
  }

  lemma {:induction false} NewestIs(receipts: seq<Receipt>, proposalId: Text) returns (n: nat)
    requires NewestReceipt(receipts, proposalId).Some?
    ensures n < |receipts| && receipts[n] == NewestReceipt(receipts, proposalId).value
            && receipts[n].proposalId == proposalId
  {
    var last := |receipts| - 1;
    if receipts[last].proposalId == proposalId { n := last; } else { n := NewestIs(receipts[..last], proposalId); }
  }

  /** The state after the plan was posted, approved and queued, its first step approved,
      and the execution handler called. */
  function Stalled(desk: Desk, post: Event, approval: Event, planId: Text, review: Event, prefix: Text, reason: Text,
                   now: Text): Gov {
    RequestExecution(desk, Emit(desk, Queued(desk, post, approval, planId, prefix, now), review), planId, reason, now).0
  }

  lemma StalledIsLogged(desk: Desk, post: Event, approval: Event, planId: Text, review: Event, prefix: Text,
                        reason: Text, now: Text)
      returns (log: seq<Event>)
    ensures Stalled(desk, post, approval, planId, review, prefix, reason, now) == Final(desk.env, log)
  {
    log := [post, approval];
    var queued := QueueIsLogged(desk, Final(desk.env, log), planId, prefix, now);
    AfterConcat(desk.env, BASELINE, log, queued);
    log := log + queued;
    EmitIsLogged(desk, Final(desk.env, log), review);
    AfterConcat(desk.env, BASELINE, log, [review]);
    log := log + [review];
    var executed := ExecuteIsLogged(desk, Final(desk.env, log), planId, reason, now);
    AfterConcat(desk.env, BASELINE, log, executed);
    log := log + executed;
  }

  /** A log that reaches the stall, with executors that always return something: the runner
      announces a binding, and the advance makes none and changes nothing, so it announces
      the same for ever unless something else happens. */
  lemma StallReached(desk: Desk, post: Event, approval: Event, plan: Plan, review: Event, prefix: Text, reason: Text,
                     now: Text, later: Text)
      returns (log: seq<Event>)
    requires NonFailing(desk) && PostedAndApproved(post, approval, plan)
             && BlockedThenWaiting(desk.registry, plan.steps)
    requires ApprovesFirst(Queued(desk, post, approval, plan.id, prefix, now), review)
    ensures var g := Final(desk.env, log);
            && g == Stalled(desk, post, approval, plan.id, review, prefix, reason, now)
            && PlanInv(desk, g, 0) && g.plans[0].id == plan.id
            && NextAction(g.plans[0], g.proposals).CanBind?
            && AdvancePlan(desk, g, plan.id, later).0 == g
  {
    QueuedPlan(desk, post, approval, plan, 0, prefix, now);
    var queued := Queued(desk, post, approval, plan.id, prefix, now);
    FirstIsApproved(desk, queued, plan.steps, review);
    FirstHasRun(desk, Emit(desk, queued, review), plan.steps, reason, now);
    log := StalledIsLogged(desk, post, approval, plan.id, review, prefix, reason, now);
    StalledStalls(desk, log, plan.steps, later);
  }

  lemma StalledStalls(desk: Desk, log: seq<Event>, steps: seq<PlanStep>, later: Text)
    requires FirstBlocked(desk, Final(desk.env, log), steps) && BlockedThenWaiting(desk.registry, steps)
    ensures var g := Final(desk.env, log);
            NextAction(g.plans[0], g.proposals).CanBind? && AdvancePlan(desk, g, g.plans[0].id, later).0 == g
  {
    var g := Final(desk.env, log);
    var s := g.plans[0].steps;
    StuckHasNoReceipt(desk, g, 1);
    PendingIsNoSource(desk.env, log, s[1]);
    assert Progresses(steps[0], s[0]) && Progresses(steps[1], s[1]) && Increasing(s, 0, 1);
    assert StepOk(desk.registry, g, s, 0) && StepOk(desk.registry, g, s, 1);
    AdvanceMayStall(desk, g, 0, s[0], s[1], later);
  }

  /** Such a plan, with the program's own tools: fetch an address, then summarize a file
      that no step reads. */
  lemma FetchThenSummarize(task: Text, found: Found, agentMode: bool)
    requires Truthy(found.path)
    ensures BlockedThenWaiting(BUILTIN, PlannedSteps(BUILTIN, [Fetch(found), Summarize(task, found)], agentMode))
  {
    var cs := [Fetch(found), Summarize(task, found)];
    BuiltinServes();
    PlannedShape(BUILTIN, cs, agentMode);
    FetchIsBlocked(found, agentMode);
    FileSummaryWaits(task, found, agentMode);
  }

  lemma FetchIsBlocked(found: Found, agentMode: bool)
    ensures var s := PlannedStep(BUILTIN, 0, Fetch(found), agentMode);
            && Eligible(s) && s.toolId == Some("fetch.url_proposed")
            && s.toolId.value in BUILTIN && ToolStatus(BUILTIN[s.toolId.value]) == "blocked_side_effect"
  {
    BuiltinServes();
    TextIsPlannable(BUILTIN, "fetch.url_proposed", "url",
                    if Truthy(found.url) then found.url.value else "<url_required>", Fetch(found).reason);
    EligibleIffPlannable(BUILTIN, 0, Fetch(found), agentMode);
    FetchStatus();
  }

  lemma FetchStatus()
    ensures "fetch.url_proposed" in BUILTIN && ToolStatus(BUILTIN["fetch.url_proposed"]) == "blocked_side_effect"
  {
  }

  lemma FileSummaryWaits(task: Text, found: Found, agentMode: bool)
    requires Truthy(found.path)
    ensures var s := PlannedStep(BUILTIN, 1, Summarize(task, found), agentMode); Eligible(s) && Dependent(s)
  {
    BuiltinServes();
    TextIsPlannable(BUILTIN, "text.summarize", "text", SummaryText(task, found), Summarize(task, found).reason);
    EligibleIffPlannable(BUILTIN, 1, Summarize(task, found), agentMode);
    WaitsIff(BUILTIN, 1, task, found, agentMode);
    FileTextMarked(task, found);
    MarkedIsKept(SummaryText(task, found));
  }

  lemma FileTextMarked(task: Text, found: Found)
    requires Truthy(found.path)
    ensures |SummaryText(task, found)| <= 240 && MARKER <= SummaryText(task, found)
  {
  }

  lemma MarkedIsKept(text: Text)
    requires |text| <= 240 && MARKER <= text
    ensures Contains(Short(text, 240), MARKER)
  {
  }
}
