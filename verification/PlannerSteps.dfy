/** Which steps the planner gives a task, word by word, and what each of them says. */
module PlannerSteps {
  import opened Collections
  import opened Governance
  import opened GovernanceProofs
  import opened ToolArguments
  import opened TaskPlanner

  /** The task holds the word, in any case. */
  ghost predicate Mentions(task: Text, word: Text) {
    Holds(Lower(task), word)
  }

  ghost predicate AsksStatus(task: Text) {
    Mentions(task, "git status") || (Mentions(task, "status") && Mentions(task, "repo"))
  }

  ghost predicate AsksSummary(task: Text) {
    Mentions(task, "summarize") || Mentions(task, "summarise")
  }

  ghost predicate AsksFetch(task: Text) {
    Mentions(task, "fetch ") || Mentions(task, "http://") || Mentions(task, "https://")
  }

  ghost predicate AsksLibrary(task: Text) {
    Mentions(task, "boh") || Mentions(task, "library") || Mentions(task, "vault")
  }

  ghost predicate AsksMutation(task: Text) {
    || Mentions(task, "write") || Mentions(task, "edit") || Mentions(task, "modify") || Mentions(task, "delete")
    || Mentions(task, "commit") || Mentions(task, "push") || Mentions(task, "create file")
  }

  lemma AsksReadIff(task: Text)
    ensures WantsStatus(Lower(task)) <==> AsksStatus(task)
    ensures WantsSummary(Lower(task)) <==> AsksSummary(task)
  {
    var t := Lower(task);
    ContainsIff(t, "git status");
    ContainsIff(t, "status");
    ContainsIff(t, "repo");
    ContainsIff(t, "summarize");
    ContainsIff(t, "summarise");
  }

  lemma AsksFetchIff(task: Text)
    ensures WantsFetch(Lower(task)) <==> AsksFetch(task)
    ensures WantsLibrary(Lower(task)) <==> AsksLibrary(task)
  {
    var t := Lower(task);
    ContainsIff(t, "fetch ");
    ContainsIff(t, "http://");
    ContainsIff(t, "https://");
    ContainsIff(t, "boh");
    ContainsIff(t, "library");
    ContainsIff(t, "vault");
  }

  lemma AsksMutationIff(task: Text)
    ensures WantsMutation(Lower(task)) <==> AsksMutation(task)
  {
    var t := Lower(task);
    ContainsIff(t, "write");
    ContainsIff(t, "edit");
    ContainsIff(t, "modify");
    ContainsIff(t, "delete");
    ContainsIff(t, "commit");
    ContainsIff(t, "push");
    ContainsIff(t, "create file");
  }

  /** The text after the first colon, without the space around it, or the whole task. */
  lemma {:induction false} AfterColonExactly(task: Text) returns (i: nat)
    ensures i <= |task| && (forall k :: 0 <= k < i ==> task[k] != ':')
    ensures if i == |task| then AfterColon(task) == task else task[i] == ':' && AfterColon(task) == Strip(task[i + 1..])
  {
    i := TailExactly(task);
    ContainsIff(task, ":");
    forall k | 0 <= k <= |task| ensures ":" <= task[k..] <==> k < |task| && task[k] == ':' { ColonAt(task, k); }
  }

  lemma ColonAt(task: Text, k: nat)
    requires k <= |task|
    ensures ":" <= task[k..] <==> k < |task| && task[k] == ':'
  {
    if k < |task| { assert task[k..][0] == task[k]; }
  }

  lemma {:induction false} TailExactly(task: Text) returns (i: nat)
    ensures i <= |task| && (forall k :: 0 <= k < i ==> task[k] != ':')
    ensures if i == |task| then Tail(task) == "" else task[i] == ':' && Tail(task) == task[i + 1..]
  {
    i := 0;
    if task != "" && task[0] != ':' {
      var rest := TailExactly(task[1..]);
      i := rest + 1;
      forall k | 0 <= k < i ensures task[k] != ':' { if k > 0 { assert task[k] == task[1..][k - 1]; } }
    }
  }

  ghost function When(asked: bool, c: Candidate): seq<Candidate> {
    if asked then [c] else []
  }

  // ------------------------------------------------------------- the candidates

  ghost function StatusStep(): Candidate {
    Candidate(Some("git.status"), map["repository" := Str(".")], "inspect repository status")
  }

  ghost function ReadStep(path: Text): Candidate {
    Candidate(Some("filesystem.read"), map["path" := Str(path)], "read requested file")
  }

  /** What is read is summed up once it has been read; else what the task says. */
  ghost function SummaryStep(task: Text, readsFile: bool): Candidate {
    if readsFile then
      Candidate(Some("text.summarize"), map["text" := Str("<requires approved filesystem.read output>")],
                "summarize after approved read")
    else Candidate(Some("text.summarize"), map["text" := Str(AfterColon(task))], "summarize provided text")
  }

  ghost function FetchStep(url: Text): Candidate {
    Candidate(Some("fetch.url_proposed"), map["url" := Str(url)], "future URL fetch proposal")
  }

  ghost function SearchStep(query: Text): Candidate {
    Candidate(Some("boh.retrieve_proposed"),
              map["query" := Str(query), "mode" := Str("exploration"), "limit" := Int(5)],
              "future BOH retrieval proposal")
  }

  ghost function ChangeStep(): Candidate {
    Candidate(None, map[], "mutation/external action remains future-only")
  }

  ghost function OutlineStep(task: Text): Candidate {
    Candidate(Some("thinking.plan_outline"), map["task" := Str(task), "max_steps" := Int(4)],
              "prepare a visible governed plan")
  }

  /** The address found, or a word for the one that is missing. */
  ghost predicate UrlOf(found: Found, url: Text) {
    if found.url.None? || found.url.value == "" then url == "<url_required>" else url == found.url.value
  }

  lemma StepsAre(task: Text, found: Found, url: Text)
    requires UrlOf(found, url)
    ensures GIT_STATUS == StatusStep() && MUTATION == ChangeStep() && Outline(task) == OutlineStep(task)
    ensures Truthy(found.path) ==> ReadFile(found.path.value) == ReadStep(found.path.value)
    ensures Summarize(task, found) == SummaryStep(task, found.path.Some? && found.path.value != "")
    ensures Fetch(found) == FetchStep(url)
  {
  }

  lemma SearchIs(task: Text)
    ensures Retrieve(task) == SearchStep(if |task| <= 240 then task else task[..240])
  {
  }

  /** The steps of a task, in this order: the status of the repository, a file to read, a
      summary, an address to fetch, a search of the library, and, without a tool, any
      change; an outline when there is nothing of all that. */
  lemma CandidatesExactly(task: Text, found: Found, url: Text)
    requires UrlOf(found, url)
    ensures var readsFile := found.path.Some? && found.path.value != "";
            var first := When(AsksStatus(task), StatusStep()) + if readsFile then [ReadStep(found.path.value)] else [];
            var later := When(AsksFetch(task), FetchStep(url))
                         + When(AsksLibrary(task), SearchStep(if |task| <= 240 then task else task[..240]))
                         + When(AsksMutation(task), ChangeStep());
            var asked := first + When(AsksSummary(task), SummaryStep(task, readsFile)) + later;
            CandidateSteps(task, found) == if asked == [] then [OutlineStep(task)] else asked
  {
    StepsAre(task, found, url);
    SearchIs(task);
    FirstExactly(task, found);
    LaterExactly(task, found);
    AsksReadIff(task);
  }

  lemma FirstExactly(task: Text, found: Found)
    ensures ReadSteps(task, found)
            == When(AsksStatus(task), GIT_STATUS)
               + if found.path.Some? && found.path.value != "" then [ReadFile(found.path.value)] else []
  {
    AsksReadIff(task);
  }

  lemma LaterExactly(task: Text, found: Found)
    ensures LaterSteps(task, found)
            == When(AsksFetch(task), Fetch(found)) + When(AsksLibrary(task), Retrieve(task))
               + When(AsksMutation(task), MUTATION)
  {
    AsksFetchIff(task);
    AsksMutationIff(task);
  }

  // ------------------------------------------------------------- planned steps

  /** The id numbers the steps from one, in two digits. */
  lemma StepIdExactly(index: nat)
    requires index < 99
    ensures |StepId(index)| == 7 && StepId(index)[..5] == "step_"
    ensures Digits(StepId(index)[5..]) && Parse(StepId(index)[5..]) == index + 1
  {
    var n := index + 1;
    var pad := Pad2(n);
    assert StepId(index) == "step_" + pad && StepId(index)[..5] == "step_" && StepId(index)[5..] == pad;
    assert pad[..1] == [Digit(n / 10)];
    DigitParsed(n / 10);
  }

  lemma DigitParsed(d: nat)
    requires d < 10
    ensures Digits([Digit(d)]) && Parse([Digit(d)]) == d
  {
    assert [Digit(d)][..0] == "";
  }

  /** Only a dry run outside agent mode needs no proposal; a tool that is merely proposed
      for later says so. */
  lemma StatusExactly(tool: Tool, agentMode: bool)
    ensures var dry := tool.mode == "dry_run" && tool.sideEffect == "none";
            var later := !dry && tool.mode != "disabled" && tool.mode != "approved_read_only"
                         && |tool.id| >= 9 && tool.id[|tool.id| - 9..] == "_proposed";
            && (StatusOf(tool, agentMode) == "future_only_blocked" <==> later)
            && (StatusOf(tool, agentMode) == "dry_run_available" <==> dry && !agentMode)
            && (StatusOf(tool, agentMode) == "proposal_required" <==> !later && (agentMode || !dry))
  {
  }

  /** A step is planned under its number, with the candidate's tool and reason; without a
      tool, or when its arguments are refused, it is blocked; else it has what is kept of
      them.  Nothing of it is queued, executed or bound. */
  lemma PlannedStepExactly(registry: Registry, index: nat, c: Candidate, agentMode: bool)
    requires index < 99
    ensures var s := PlannedStep(registry, index, c, agentMode);
            && s.id == StepId(index) && s.reason == c.reason
            && s.proposalId.None? && s.receiptId.None? && s.executionStatus.None? && s.boundArguments.None?
            && s.binding.None?
            && if c.toolId.None? || c.toolId == Some("") then
                 s.toolId.None? && s.arguments == map[] && s.status == "blocked_no_tool"
               else
                 && s.toolId == c.toolId
                 && var once := Validate(registry, c.toolId.value, c.arguments);
                    if once.Raised? || Validate(registry, c.toolId.value, once.value.arguments).Raised? then
                      s.arguments == c.arguments && s.status == "blocked_invalid_arguments"
                    else
                      s.arguments == once.value.arguments && s.status == StatusOf(registry[c.toolId.value], agentMode)
  {
  }
}
