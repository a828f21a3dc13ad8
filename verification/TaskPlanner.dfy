/** The planner: which steps a task gets, and why the plans it builds have the shape the
    runner needs. */
module TaskPlanner {
  import opened Collections
  import opened Governance
  import opened ToolArguments
  import opened PlanRunner
  import opened PlanInvariant
  import opened GovernanceTheorems
  import opened PlanTheorems
  import opened PlanLife

  /** What the two patterns find in a task's words. */
  datatype Found = Found(path: Option<Text>, url: Option<Text>)

  datatype Candidate = Candidate(toolId: Option<Text>, arguments: Args, reason: Text)

  /** The text after the first colon, or the whole task when there is none. */
  function AfterColon(task: Text): Text {
    if !Contains(task, ":") then task else Strip(Tail(task))
  }

  function Tail(task: Text): Text {
    if task == "" then "" else if task[0] == ':' then task[1..] else Tail(task[1..])
  }

  const GIT_STATUS := Candidate(Some("git.status"), map["repository" := Str(".")], "inspect repository status")
  const MUTATION := Candidate(None, map[], "mutation/external action remains future-only")

  function ReadFile(path: Text): Candidate {
    Candidate(Some("filesystem.read"), map["path" := Str(path)], "read requested file")
  }

  function Summarize(task: Text, found: Found): Candidate {
    if Truthy(found.path)
    then Candidate(Some("text.summarize"), map["text" := Str("<requires approved filesystem.read output>")],
                   "summarize after approved read")
    else Candidate(Some("text.summarize"), map["text" := Str(AfterColon(task))], "summarize provided text")
  }

  function Fetch(found: Found): Candidate {
    Candidate(Some("fetch.url_proposed"),
              map["url" := Str(if Truthy(found.url) then found.url.value else "<url_required>")],
              "future URL fetch proposal")
  }

  function Retrieve(task: Text): Candidate {
    Candidate(Some("boh.retrieve_proposed"),
              map["query" := Str(Short(task, 240)), "mode" := Str("exploration"), "limit" := Int(5)],
              "future BOH retrieval proposal")
  }

  function Outline(task: Text): Candidate {
    Candidate(Some("thinking.plan_outline"), map["task" := Str(task), "max_steps" := Int(4)],
              "prepare a visible governed plan")
  }

  predicate WantsStatus(t: Text) {
    Contains(t, "git status") || (Contains(t, "status") && Contains(t, "repo"))
  }

  predicate WantsSummary(t: Text) {
    Contains(t, "summarize") || Contains(t, "summarise")
  }

  predicate WantsFetch(t: Text) {
    Contains(t, "fetch ") || Contains(t, "http://") || Contains(t, "https://")
  }

  predicate WantsLibrary(t: Text) {
    Contains(t, "boh") || Contains(t, "library") || Contains(t, "vault")
  }

  predicate WantsMutation(t: Text) {
    Contains(t, "write") || Contains(t, "edit") || Contains(t, "modify") || Contains(t, "delete")
      || Contains(t, "commit")
    || Contains(t, "push") || Contains(t, "create file")
  }

  /** The read-only steps that come first. */
  function ReadSteps(task: Text, found: Found): seq<Candidate> {
    var t := Lower(task);
    var s := if WantsStatus(t) then [GIT_STATUS] else [];
    if Truthy(found.path) then s + [ReadFile(found.path.value)] else s
  }

  function LaterSteps(task: Text, found: Found): seq<Candidate> {
    var t := Lower(task);
    var s := if WantsFetch(t) then [Fetch(found)] else [];
    var r := if WantsLibrary(t) then s + [Retrieve(task)] else s;
    if WantsMutation(t) then r + [MUTATION] else r
  }

  function CandidateSteps(task: Text, found: Found): seq<Candidate> {
    var middle := if WantsSummary(Lower(task)) then [Summarize(task, found)] else [];
    var steps := ReadSteps(task, found) + middle + LaterSteps(task, found);
    if steps == [] then [Outline(task)] else steps
  }

  /** The list as the planner builds it, branch by branch. */
  method BuildCandidates(task: Text, found: Found) returns (steps: seq<Candidate>)
    ensures steps == CandidateSteps(task, found)
  {
    var t := Lower(task);
    steps := [];
    if WantsStatus(t) { steps := steps + [GIT_STATUS]; }
    if Truthy(found.path) { steps := steps + [ReadFile(found.path.value)]; }
    assert steps == ReadSteps(task, found);
    if WantsSummary(t) { steps := steps + [Summarize(task, found)]; }
    steps := AppendLater(task, found, steps);
    if steps == [] { steps := [Outline(task)]; }
  }

  method AppendLater(task: Text, found: Found, first: seq<Candidate>) returns (steps: seq<Candidate>)
    ensures steps == first + LaterSteps(task, found)
  {
    var t := Lower(task);
    steps := first;
    if WantsFetch(t) { steps := steps + [Fetch(found)]; }
    if WantsLibrary(t) { steps := steps + [Retrieve(task)]; }
    if WantsMutation(t) { steps := steps + [MUTATION]; }
  }

  // ------------------------------------------------------------ planned steps

  function Pad2(n: nat): Text
    requires n < 100
  {
    [Digit(n / 10), Digit(n % 10)]
  }

  function StepId(index: nat): Text
    requires index < 99
  {
    "step_" + Pad2(index + 1)
  }

  predicate EndsWith(s: Text, part: Text) {
    |s| >= |part| && s[|s| - |part|..] == part
  }

  predicate DryRun(tool: Tool) {
    tool.mode == "dry_run" && tool.sideEffect == "none"
  }

  function StatusOf(tool: Tool, agentMode: bool): (r: Text)
    ensures r !in {"blocked_no_tool", "blocked_invalid_arguments"}
  {
    if !DryRun(tool) && tool.mode !in {"disabled", "approved_read_only"} && EndsWith(tool.id, "_proposed")
      then "future_only_blocked"
    else if agentMode || !DryRun(tool) then "proposal_required"
    else "dry_run_available"
  }

  /** A step is planned with its sanitized arguments; the gate validates those again. */
  function PlannedStep(registry: Registry, index: nat, c: Candidate, agentMode: bool): PlanStep
    requires index < 99
  {
    var blank := PlanStep(StepId(index), c.toolId, c.reason, map[], "blocked_no_tool", None, None, None, None, None);
    if !Truthy(c.toolId) then blank.(toolId := None)
    else
      var checked := Validate(registry, c.toolId.value, c.arguments);
      if checked.Raised? || Validate(registry, c.toolId.value, checked.value.arguments).Raised?
      then blank.(arguments := c.arguments, status := "blocked_invalid_arguments")
      else blank.(arguments := checked.value.arguments, status := StatusOf(registry[c.toolId.value], agentMode))
  }

  function PlannedSteps(registry: Registry, cs: seq<Candidate>, agentMode: bool): (r: seq<PlanStep>)
    requires |cs| < 99
    ensures |r| == |cs| && forall i :: 0 <= i < |r| ==> r[i] == PlannedStep(registry, i, cs[i], agentMode)
  {
    seq(|cs|, i requires 0 <= i < |cs| => PlannedStep(registry, i, cs[i], agentMode))
  }

  // ---------------------------------------------------------- the plan's shape

  lemma {:induction false} BeforeAfterPrefix(p: Text, a: Text, b: Text)
    ensures Before(p + a, p + b) <==> Before(a, b)
  {
    if p == "" {
      assert p + a == a && p + b == b;
    } else {
      assert (p + a)[1..] == p[1..] + a && (p + b)[1..] == p[1..] + b;
      BeforeAfterPrefix(p[1..], a, b);
    }
  }

  lemma TwoDigitsIncrease(m: nat, n: nat)
    requires m < n < 100
    ensures Before(Pad2(m), Pad2(n)) && Pad2(m) != Pad2(n)
  {
    var a, b := Pad2(m), Pad2(n);
    assert a[1..] == [Digit(m % 10)] && b[1..] == [Digit(n % 10)];
    assert Before([Digit(m % 10)], [Digit(n % 10)]) <==> m % 10 < n % 10 by {
      assert [Digit(m % 10)][1..] == "" && [Digit(n % 10)][1..] == "";
    }
  }

  lemma StepIdsIncrease(i: nat, j: nat)
    requires i < j < 99
    ensures Before(StepId(i), StepId(j)) && StepId(i) != StepId(j)
  {
    var a, b := Pad2(i + 1), Pad2(j + 1);
    TwoDigitsIncrease(i + 1, j + 1);
    BeforeAfterPrefix("step_", a, b);
    assert "step_" + a != "step_" + b by {
      assert ("step_" + a)[5..] == a && ("step_" + b)[5..] == b;
    }
  }

  /** What validated once and still validates is exactly what it validates to. */
  lemma ValidatedTwice(registry: Registry, toolId: Text, args: Args)
    requires Validate(registry, toolId, args).Ok?
    ensures var kept := Validate(registry, toolId, args).value.arguments;
            Validate(registry, toolId, kept).Ok? ==> Validate(registry, toolId, kept) == Ok(Checked(kept, {}))
  {
    var tool := registry[toolId];
    var kept := Validate(registry, toolId, args).value.arguments;
    SanitizeIdempotent(map k | k in args && Keeps(tool, k) :: args[k]);
    assert (map k | k in kept && Keeps(tool, k) :: kept[k]) == kept;
    assert (set k | k in kept && !Keeps(tool, k)) == {};
  }

  predicate ReadsOnly(c: Candidate) {
    c.toolId in {Some("git.status"), Some("filesystem.read")}
  }

  predicate Summarizes(c: Candidate) {
    c.toolId == Some("text.summarize")
  }

  lemma LaterSummarizesNothing(task: Text, found: Found)
    ensures forall k :: 0 <= k < |LaterSteps(task, found)| ==> !Summarizes(LaterSteps(task, found)[k])
  {
  }

  lemma FirstReadsOnly(task: Text, found: Found)
    ensures forall k :: 0 <= k < |ReadSteps(task, found)| ==> ReadsOnly(ReadSteps(task, found)[k])
  {
  }

  /** Read-only steps first, then perhaps the summarizing one, then others. */
  lemma CandidateOrder(task: Text, found: Found, i: nat)
    requires i < |CandidateSteps(task, found)|
    ensures CandidateSteps(task, found) != [Outline(task)] && i < |ReadSteps(task, found)| ==>
              ReadsOnly(CandidateSteps(task, found)[i])
    ensures i != |ReadSteps(task, found)| ==> !Summarizes(CandidateSteps(task, found)[i])
  {
    var first, later := ReadSteps(task, found), LaterSteps(task, found);
    var middle := if WantsSummary(Lower(task)) then [Summarize(task, found)] else [];
    LaterSummarizesNothing(task, found);
    FirstReadsOnly(task, found);
    JoinedAt(first, middle, later, i);
  }

  lemma JoinedAt(first: seq<Candidate>, middle: seq<Candidate>, later: seq<Candidate>, i: nat)
    ensures i < |first| ==> (first + middle + later)[i] == first[i]
    ensures |first| + |middle| <= i < |first + middle + later| ==>
              (first + middle + later)[i] == later[i - |first| - |middle|]
  {
  }

  /** A summarizing step has only read-only steps before it. */
  lemma SummaryFollowsReads(task: Text, found: Found, i: nat, j: nat)
    requires j < i < |CandidateSteps(task, found)| && Summarizes(CandidateSteps(task, found)[i])
    ensures ReadsOnly(CandidateSteps(task, found)[j])
  {
    CandidateOrder(task, found, i);
    CandidateOrder(task, found, j);
  }

  lemma FewCandidates(task: Text, found: Found)
    ensures 1 <= |CandidateSteps(task, found)| <= 6
  {
  }

  function TaskSteps(registry: Registry, task: Text, found: Found, agentMode: bool): seq<PlanStep> {
    FewCandidates(task, found);
    PlannedSteps(registry, CandidateSteps(task, found), agentMode)
  }

  /** Whatever the candidates, the planned steps have increasing ids and arguments that
      validate to themselves. */
  lemma PlannedShape(registry: Registry, cs: seq<Candidate>, agentMode: bool)
    requires RegistryOk(registry) && |cs| < 99
    ensures var steps := PlannedSteps(registry, cs, agentMode);
            ShapeOk(registry, steps) && forall i :: 0 <= i < |steps| ==> Untried(steps[i])
  {
    var steps := PlannedSteps(registry, cs, agentMode);
    forall i, j ensures Increasing(steps, i, j) {
      if 0 <= i < j < |steps| { PlannedIncrease(registry, cs, agentMode, i, j); }
    }
    forall i ensures Queueable(registry, steps, i) {
      if 0 <= i < |steps| && Eligible(steps[i]) { PlannedIsQueueable(registry, i, cs[i], agentMode); }
    }
  }

  /** Every plan the planner builds, for any registry, has the shape the runner needs. */
  lemma PlannerShape(registry: Registry, task: Text, found: Found, agentMode: bool)
    requires RegistryOk(registry)
    ensures var steps := TaskSteps(registry, task, found, agentMode);
            ShapeOk(registry, steps) && SourcesFirst(registry, steps) && forall i ::
                0 <= i < |steps| ==> Untried(steps[i])
  {
    FewCandidates(task, found);
    var steps := TaskSteps(registry, task, found, agentMode);
    PlannedShape(registry, CandidateSteps(task, found), agentMode);
    forall j, i ensures FollowsSources(registry, steps, j, i) {
      if 0 <= j < i < |steps| { PlannedFollows(registry, task, found, agentMode, j, i); }
    }
  }

  lemma PlannedIncrease(registry: Registry, cs: seq<Candidate>, agentMode: bool, i: nat, j: nat)
    requires i < j < |cs| < 99
    ensures Increasing(PlannedSteps(registry, cs, agentMode), i, j)
  {
    StepIdsIncrease(i, j);
  }

  lemma PlannedFollows(registry: Registry, task: Text, found: Found, agentMode: bool, j: nat, i: nat)
    requires RegistryOk(registry) && j < i < |TaskSteps(registry, task, found, agentMode)|
    ensures FollowsSources(registry, TaskSteps(registry, task, found, agentMode), j, i)
  {
    FewCandidates(task, found);
    if Summarizes(CandidateSteps(task, found)[i]) { SummaryFollowsReads(task, found, i, j); }
  }

  lemma PlannedIsQueueable(registry: Registry, index: nat, c: Candidate, agentMode: bool)
    requires index < 99 && Eligible(PlannedStep(registry, index, c, agentMode))
    ensures var s := PlannedStep(registry, index, c, agentMode);
            KnownTool(registry, s) && Validate(registry, s.toolId.value, s.arguments) == Ok(Checked(s.arguments, {}))
  {
    ValidatedTwice(registry, c.toolId.value, c.arguments);
  }

  /** Every step that waits for a result has an eligible step before it. */
  ghost predicate ResultsHaveSources(steps: seq<PlanStep>) {
    forall i ::
        0 <= i < |steps| && Eligible(steps[i]) && Dependent(steps[i]) ==> exists j :: 0 <= j < i && Eligible(steps[j])
  }

  // ----------------------------------- when a plan may be called complete too early

  /** The candidate's tool takes its arguments, and takes them again once sanitized. */
  predicate Plannable(registry: Registry, c: Candidate) {
    && Truthy(c.toolId)
    && Validate(registry, c.toolId.value, c.arguments).Ok?
    && Validate(registry, c.toolId.value, Validate(registry, c.toolId.value, c.arguments).value.arguments).Ok?
  }

  lemma EligibleIffPlannable(registry: Registry, index: nat, c: Candidate, agentMode: bool)
    requires index < 99
    ensures Eligible(PlannedStep(registry, index, c, agentMode)) <==> Plannable(registry, c)
  {
  }

  /** The text the summarizing step is given. */
  function SummaryText(task: Text, found: Found): Text {
    if Truthy(found.path) then "<requires approved filesystem.read output>" else AfterColon(task)
  }

  lemma TextIsPlain()
    ensures !Sensitive("text")
  {
  }

  /** A text argument a tool takes is kept, cut to the length that is kept. */
  lemma TextIsKept(registry: Registry, toolId: Text, value: Text)
    requires Validate(registry, toolId, map["text" := Str(value)]).Ok?
    ensures Validate(registry, toolId, map["text" := Str(value)]).value.arguments
            == map["text" := Str(Short(value, 240))]
  {
    TextIsPlain();
    var args: Args := map["text" := Str(value)];
    var tool := registry[toolId];
    assert "text" in args && Admitted(tool, "text", args["text"]);
    assert Keeps(tool, "text");
    assert (map k | k in args && Keeps(tool, k) :: args[k]) == args;
  }

  /** The summarizing step waits for a result when the marker is within what is kept of its text. */
  lemma WaitsIff(registry: Registry, index: nat, task: Text, found: Found, agentMode: bool)
    requires index < 99 && Plannable(registry, Summarize(task, found))
    ensures Dependent(PlannedStep(registry, index, Summarize(task, found), agentMode))
            <==> Contains(Short(SummaryText(task, found), 240), MARKER)
  {
    assert Summarize(task, found).arguments == map["text" := Str(SummaryText(task, found))];
    TextIsKept(registry, "text.summarize", SummaryText(task, found));
  }

  /** The task gets a summarizing step that waits for a result, and no step that could give one. */
  predicate WaitsInVain(registry: Registry, task: Text, found: Found) {
    var t := Lower(task);
    && WantsSummary(t) && Plannable(registry, Summarize(task, found))
    && Contains(Short(SummaryText(task, found), 240), MARKER)
    && !(WantsStatus(t) && Plannable(registry, GIT_STATUS))
    && !(Truthy(found.path) && Plannable(registry, ReadFile(found.path.value)))
  }

  /** Some read-only step of the task can be planned. */
  predicate ReadsSomething(registry: Registry, task: Text, found: Found) {
    || (WantsStatus(Lower(task)) && Plannable(registry, GIT_STATUS))
    || (Truthy(found.path) && Plannable(registry, ReadFile(found.path.value)))
  }

  lemma ReadsSomethingIff(registry: Registry, task: Text, found: Found, agentMode: bool)
    ensures var steps := TaskSteps(registry, task, found, agentMode);
            ReadsSomething(registry, task, found) <==>
              exists j :: 0 <= j < |ReadSteps(task, found)| && j < |steps| && Eligible(steps[j])
  {
    FewCandidates(task, found);
    var cs, first, steps := CandidateSteps(task, found), ReadSteps(task, found),
      TaskSteps(registry, task, found, agentMode);
    forall j | 0 <= j < |first|
      ensures j < |steps| && cs[j] == first[j]
              && (Eligible(steps[j]) <==> Plannable(registry, first[j]))
    {
      FirstFirst(task, found, j);
      EligibleIffPlannable(registry, j, cs[j], agentMode);
    }
    if WantsStatus(Lower(task)) { assert first[0] == GIT_STATUS; }
    if Truthy(found.path) { assert first[|first| - 1] == ReadFile(found.path.value); }
  }

  lemma FirstFirst(task: Text, found: Found, j: nat)
    requires j < |ReadSteps(task, found)|
    ensures j < |CandidateSteps(task, found)| && CandidateSteps(task, found)[j] == ReadSteps(task, found)[j]
  {
  }

  /** Only the summarizing step waits, and it stands right after the read-only steps. */
  lemma OnlySummaryWaits(registry: Registry, task: Text, found: Found, agentMode: bool, i: nat)
    requires i < |TaskSteps(registry, task, found, agentMode)|
    ensures var s := TaskSteps(registry, task, found, agentMode)[i];
            Eligible(s) && Dependent(s) <==>
              && i == |ReadSteps(task, found)| && WantsSummary(Lower(task))
              && Plannable(registry, Summarize(task, found))
              && Contains(Short(SummaryText(task, found), 240), MARKER)
  {
    FewCandidates(task, found);
    CandidateOrder(task, found, i);
    SummaryPlace(task, found, i);
    EligibleIffPlannable(registry, i, CandidateSteps(task, found)[i], agentMode);
    if i == |ReadSteps(task, found)| && WantsSummary(Lower(task)) && Plannable(registry, Summarize(task, found)) {
      WaitsIff(registry, i, task, found, agentMode);
    }
  }

  lemma SummaryPlace(task: Text, found: Found, i: nat)
    requires i < |CandidateSteps(task, found)|
    ensures i == |ReadSteps(task, found)| && WantsSummary(Lower(task)) ==>
              CandidateSteps(task, found)[i] == Summarize(task, found)
    ensures i == |ReadSteps(task, found)| && !WantsSummary(Lower(task)) ==> !Summarizes(CandidateSteps(task, found)[i])
  {
    LaterSummarizesNothing(task, found);
    JoinedAt(ReadSteps(task, found), if WantsSummary(Lower(task)) then [Summarize(task, found)] else [],
             LaterSteps(task, found), i);
  }

  /** For every registry and task: the planner's plan gives each waiting step a source
      unless the task waits in vain. */
  lemma PlannerSourcesIff(registry: Registry, task: Text, found: Found, agentMode: bool)
    ensures ResultsHaveSources(TaskSteps(registry, task, found, agentMode)) <==> !WaitsInVain(registry, task, found)
  {
    FewCandidates(task, found);
    var steps := TaskSteps(registry, task, found, agentMode);
    var m := |ReadSteps(task, found)|;
    ReadsSomethingIff(registry, task, found, agentMode);
    forall i | 0 <= i < |steps|
      ensures Eligible(steps[i]) && Dependent(steps[i]) ==>
                i == m && (WaitsInVain(registry, task, found) <==> !ReadsSomething(registry, task, found))
    {
      OnlySummaryWaits(registry, task, found, agentMode, i);
    }
    if WaitsInVain(registry, task, found) {
      SummaryIsPlanned(task, found);
      OnlySummaryWaits(registry, task, found, agentMode, m);
    }
  }

  lemma SummaryIsPlanned(task: Text, found: Found)
    requires WantsSummary(Lower(task))
    ensures |ReadSteps(task, found)| < |CandidateSteps(task, found)|
  {
  }

  /** The registry's tool takes this one text argument. */
  predicate TakesText(registry: Registry, toolId: Text, argument: Text) {
    && toolId != "" && toolId in registry && argument in registry[toolId].properties
    && registry[toolId].properties[argument] == Some("string") && registry[toolId].required <= {argument}
  }

  lemma TextIsPlannable(registry: Registry, toolId: Text, argument: Text, value: Text, reason: Text)
    requires TakesText(registry, toolId, argument)
    ensures Plannable(registry, Candidate(Some(toolId), map[argument := Str(value)], reason))
  {
    var args: Args := map[argument := Str(value)];
    assert Validate(registry, toolId, args).Ok?;
    var kept := Validate(registry, toolId, args).value.arguments;
    assert argument in kept && kept[argument].Str?;
  }

  /** For a registry that serves the planner's own steps, as the program's does: waiting in
      vain is a matter of the task alone.  It asks for a summary, names no file, does not
      ask for the repository's status, and its own text holds the marker. */
  lemma PlannerSourcesForTask(registry: Registry, task: Text, found: Found, agentMode: bool)
    requires TakesText(registry, "git.status", "repository") && TakesText(registry, "filesystem.read", "path")
    requires TakesText(registry, "text.summarize", "text")
    ensures ResultsHaveSources(TaskSteps(registry, task, found, agentMode))
            <==> !(WantsSummary(Lower(task)) && !Truthy(found.path) && !WantsStatus(Lower(task))
                   && Contains(Short(AfterColon(task), 240), MARKER))
  {
    PlannerSourcesIff(registry, task, found, agentMode);
    TextIsPlannable(registry, "git.status", "repository", ".", GIT_STATUS.reason);
    TextIsPlannable(registry, "text.summarize", "text", SummaryText(task, found), Summarize(task, found).reason);
    if Truthy(found.path) {
      TextIsPlannable(registry, "filesystem.read", "path", found.path.value, "read requested file");
    }
  }

  // ------------------------------------------------- where guided advance starts

  ghost predicate FromTask(registry: Registry, steps: seq<PlanStep>) {
    exists task: Text, found: Found, agentMode: bool :: steps == TaskSteps(registry, task, found, agentMode)
  }

  /** The plans of the log are those the planner built for some tasks. */
  ghost predicate PlannedLog(registry: Registry, log: seq<Event>) {
    forall i :: 0 <= i < |log| && log[i].typ == "tool_plan" && log[i].plan.Some? ==>
      log[i].plan.value.review.None? && FromTask(registry, log[i].plan.value.steps)
  }

  lemma PlannedIsBuilt(registry: Registry, log: seq<Event>)
    requires RegistryOk(registry) && PlannedLog(registry, log)
    ensures PlannerBuilt(log)
  {
    forall i | 0 <= i < |log| && log[i].typ == "tool_plan" && log[i].plan.Some? ensures FromPlanner(log[i].plan.value) {
      var task: Text, found: Found, agentMode: bool :| log[i].plan.value.steps
        == TaskSteps(registry, task, found, agentMode);
      PlannerShape(registry, task, found, agentMode);
    }
  }

  /** A human approves a plan of a log whose plans come from the planner: from there on the
      invariant of guided advance holds, so everything proved about it applies. */
  lemma ApprovalStarts(desk: Desk, log: seq<Event>, k: nat, e: Event)
    requires RegistryOk(desk.registry) && PlannedLog(desk.registry, log)
    requires var g := Final(desk.env, log);
             && k < |g.plans| && g.plans[k].id != "" && FindPlan(g.plans, g.plans[k].id) == k && PlanPending(g.plans[k])
             && e.typ == "tool_plan_review" && e.planId == g.plans[k].id
             && Lower(e.decision) == "approved"
    ensures GuidedInv(desk, Final(desk.env, log + [e]), k)
    ensures FromTask(desk.registry, Final(desk.env, log + [e]).plans[k].steps)
  {
    PlannedIsBuilt(desk.registry, log);
    var j := StepsAsLogged(desk.env, log, k);
    var steps := Final(desk.env, log).plans[k].steps;
    var task: Text, found: Found, agentMode: bool :| steps == TaskSteps(desk.registry, task, found, agentMode);
    PlannerShape(desk.registry, task, found, agentMode);
    ApprovalEstablishes(desk, log, k, e);
  }
}
