/** Binding results: a step that waits for an earlier step's result gets it. */
module PlanBinding {
  import opened Collections
  import opened Governance
  import opened GovernanceProofs
  import opened ToolArguments
  import opened PlanRunner
  import opened PlanInvariant
  import opened PlanProgress

  predicate HasBinding(bindings: seq<Binding>, id: Text) {
    bindings != [] && (bindings[|bindings| - 1].proposalId == id || HasBinding(bindings[..|bindings| - 1], id))
  }

  /** A binding takes effect when its proposal is stored and still pending. */
  predicate Applies(queue: seq<Proposal>, bindings: seq<Binding>, id: Text) {
    && HasBinding(bindings, id)
    && var i := FindProposal(queue, id);
       i < |queue| && queue[i].review == Pending
  }

  /** A step that waits for a result gets it from one of these bindings. */
  predicate BindsNow(queue: seq<Proposal>, bindings: seq<Binding>, s: PlanStep) {
    Dependent(s) && !Bound(s) && s.proposalId.Some? && Applies(queue, bindings, s.proposalId.value)
  }

  ghost predicate NonEmpty(bindings: seq<Binding>) {
    forall x :: 0 <= x < |bindings| ==> bindings[x].arguments != map[]
  }

  /** The same proposal, but for its arguments and where they came from. */
  ghost predicate SameButArguments(p: Proposal, p': Proposal) {
    p' == p.(meta := p.meta.(toolArguments := p'.meta.toolArguments), binding := p'.binding)
  }

  ghost predicate SameQueue(q: seq<Proposal>, q': seq<Proposal>) {
    |q'| == |q| && forall m :: 0 <= m < |q| ==> SameButArguments(q[m], q'[m])
  }

  lemma {:induction false} FindSame(a: seq<Proposal>, b: seq<Proposal>, id: Text)
    requires |a| == |b| && forall i :: 0 <= i < |a| ==> a[i].id == b[i].id
    ensures FindProposal(b, id) == FindProposal(a, id)
  {
    if a != [] { FindSame(a[1..], b[1..], id); }
  }

  lemma {:induction false} AllBoundSame(q: seq<Proposal>, steps: seq<PlanStep>, count: nat, bindings: seq<Binding>,
                                        at: Option<Text>)
    ensures SameQueue(q, AllBound(q, steps, count, bindings, at).0)
    decreases |bindings|
  {
    if bindings != [] {
      var n := |bindings| - 1;
      AllBoundSame(q, steps, count, bindings[..n], at);
    }
  }

  /** Only a proposal some binding applies to gets other arguments. */
  lemma {:induction false} AllBoundProposal(q: seq<Proposal>, steps: seq<PlanStep>, count: nat, bindings: seq<Binding>,
                                            at: Option<Text>, m: nat)
    requires m < |q|
    ensures AllBound(q, steps, count, bindings, at).0[m] == q[m] || Applies(q, bindings, q[m].id)
    decreases |bindings|
  {
    if bindings != [] {
      var n := |bindings| - 1;
      AllBoundProposal(q, steps, count, bindings[..n], at, m);
      AllBoundSame(q, steps, count, bindings[..n], at);
      var q1 := AllBound(q, steps, count, bindings[..n], at).0;
      FindSame(q, q1, bindings[n].proposalId);
      FindSame(q, q1, q[m].id);
    }
  }

  /** A step after the bindings: bound when `applied`, else as it was. */
  ghost predicate BoundWhen(applied: bool, s: PlanStep, s': PlanStep) {
    if applied
      then Bound(s') && s' == s.(boundArguments := s'.boundArguments, binding := s'.binding, status := "result_bound")
    else s' == s
  }

  lemma NextBound(s: PlanStep, s1: PlanStep, b: Binding, at: Option<Text>, applied: bool)
    requires BoundWhen(applied, s, s1) && b.arguments != map[]
    ensures BoundWhen(applied || s.proposalId == Some(b.proposalId), s, StepBound(s1, b, at))
  {
  }

  /** A step is bound exactly when a binding applies to its proposal. */
  lemma {:induction false} AllBoundStep(q: seq<Proposal>, steps: seq<PlanStep>, count: nat, bindings: seq<Binding>,
                                        at: Option<Text>, i: nat)
    requires i < |steps| && NonEmpty(bindings)
    ensures BoundWhen(steps[i].proposalId.Some? && Applies(q, bindings, steps[i].proposalId.value),
                      steps[i], AllBound(q, steps, count, bindings, at).1[i])
    decreases |bindings|
  {
    if bindings != [] {
      var n := |bindings| - 1;
      AllBoundStep(q, steps, count, bindings[..n], at, i);
      AllBoundSame(q, steps, count, bindings[..n], at);
      var (q1, steps1, _) := AllBound(q, steps, count, bindings[..n], at);
      FindSame(q, q1, bindings[n].proposalId);
      NextBound(steps[i], steps1[i], bindings[n], at,
                steps[i].proposalId.Some? && Applies(q, bindings[..n], steps[i].proposalId.value));
    }
  }

  lemma StepBoundOk(registry: Registry, g: Gov, steps: seq<PlanStep>, count: nat, bindings: seq<Binding>,
                    at: Option<Text>, i: nat)
    requires i < |steps| && NonEmpty(bindings) && StepOk(registry, g, steps, i)
    ensures var (q', steps', _) := AllBound(g.proposals, steps, count, bindings, at);
            var s := steps'[i];
            && QueuedOk(registry, q', s) && ExecutedOk(registry, q', g.receipts, s) && Progresses(steps[i], s)
            && (BindsNow(g.proposals, bindings, steps[i]) ==> Work(s) < Work(steps[i]))
  {
    AllBoundStep(g.proposals, steps, count, bindings, at, i);
    AllBoundSame(g.proposals, steps, count, bindings, at);
    var s := steps[i];
    if s.proposalId.Some? {
      var q' := AllBound(g.proposals, steps, count, bindings, at).0;
      FindSame(g.proposals, q', s.proposalId.value);
      AllBoundProposal(g.proposals, steps, count, bindings, at, FindProposal(g.proposals, s.proposalId.value));
    }
  }

  lemma AllStepsBound(registry: Registry, g: Gov, g': Gov, steps: seq<PlanStep>, count: nat, bindings: seq<Binding>,
                      at: Option<Text>)
    requires StepsOk(registry, g, steps) && NonEmpty(bindings)
    requires g'.proposals == AllBound(g.proposals, steps, count, bindings, at).0 && g'.receipts == g.receipts
    ensures var steps' := AllBound(g.proposals, steps, count, bindings, at).1;
            && StepsOk(registry, g', steps') && StepsProgress(steps, steps')
            && forall i ::
                 0 <= i < |steps| && BindsNow(g.proposals, bindings, steps[i]) ==> Work(steps'[i]) < Work(steps[i])
  {
    var steps' := AllBound(g.proposals, steps, count, bindings, at).1;
    forall i | 0 <= i < |steps|
      ensures StepOk(registry, g', steps', i) && Progresses(steps[i], steps'[i])
      ensures BindsNow(g.proposals, bindings, steps[i]) ==> Work(steps'[i]) < Work(steps[i])
    {
      assert StepOk(registry, g, steps, i);
      StepBoundOk(registry, g, steps, count, bindings, at, i);
    }
    forall i ensures StepOk(registry, g', steps', i) {}
  }

  // --------------------------------------------------------- finding a source

  lemma {:induction false} PriorGives(target: PlanStep, steps: seq<PlanStep>) returns (s: PlanStep)
    requires HasPrior(target, steps)
    ensures s in steps && Before(s.id, target.id) && HasRun(s)
  {
    if HasRun(steps[0]) {
      s := steps[0];
    } else {
      s := PriorGives(target, steps[1..]);
    }
  }

  lemma {:induction false} SourceFound(receipts: seq<Receipt>, steps: seq<PlanStep>, j: nat, n: nat)
    requires j < n <= |steps| && IsSource(receipts, steps[j])
    ensures Source(receipts, steps[..n]).Some?
    decreases n
  {
    assert steps[..n][..n - 1] == steps[..n - 1];
    if j < n - 1 && !IsSource(receipts, steps[n - 1]) { SourceFound(receipts, steps, j, n - 1); }
  }

  /** A step that has run before a dependent step is a source for it. */
  lemma RunIsSource(registry: Registry, g: Gov, steps: seq<PlanStep>, j: nat, i: nat)
    requires ShapeOk(registry, steps) && SourcesFirst(registry, steps) && StepsOk(registry, g, steps) && j < i < |steps|
    requires Dependent(steps[i]) && Eligible(steps[j]) && HasRun(steps[j])
    ensures IsSource(g.receipts, steps[j])
  {
    assert StepOk(registry, g, steps, j) && FollowsSources(registry, steps, j, i) && Queueable(registry, steps, j);
  }

  lemma {:induction false} BindingsNonEmpty(desk: Desk, g: Gov, steps: seq<PlanStep>)
    ensures NonEmpty(Bindings(desk, g, steps))
    decreases |steps|
  {
    if steps != [] {
      BindingsNonEmpty(desk, g, steps[..|steps| - 1]);
      var s := steps[|steps| - 1];
      var source := Source(g.receipts, steps);
      if WantsBinding(s, g.proposals) && source.Some? {
        SourceIsSource(g.receipts, steps);
        assert "text" in BindingFrom(desk, g.receipts, source.value, s.proposalId.value).arguments;
      }
    }
  }

  /** A step that wants a binding and has a source up to it gets one. */
  lemma {:induction false} BindingMade(desk: Desk, g: Gov, steps: seq<PlanStep>, i: nat, n: nat)
    requires i < n <= |steps| && WantsBinding(steps[i], g.proposals) && Source(g.receipts, steps[..i + 1]).Some?
    ensures HasBinding(Bindings(desk, g, steps[..n]), steps[i].proposalId.value)
    decreases n
  {
    assert steps[..n][..n - 1] == steps[..n - 1];
    var made := Bindings(desk, g, steps[..n]);
    if i < n - 1 {
      BindingMade(desk, g, steps, i, n - 1);
      var rest := Bindings(desk, g, steps[..n - 1]);
      if made != rest { assert made[..|made| - 1] == rest; }
    }
  }

  lemma BindableIsApplied(desk: Desk, g: Gov, k: nat, i: nat)
    requires GuidedInv(desk, g, k) && i < |g.plans[k].steps|
    requires var steps := g.plans[k].steps; Eligible(steps[i]) && Bindable(steps[i], g.proposals, EligibleSteps(steps))
    ensures var steps := g.plans[k].steps;
            BindsNow(g.proposals, Bindings(desk, g, steps), steps[i])
  {
    var steps := g.plans[k].steps;
    var s := steps[i];
    assert StepOk(desk.registry, g, steps, i);
    BindableProposal(desk.registry, g, s, EligibleSteps(steps));
    var prior := PriorGives(s, EligibleSteps(steps));
    EligibleIs(steps, prior);
    var j :| 0 <= j < |steps| && steps[j] == prior;
    assert Increasing(steps, i, j);
    BeforeAntisymmetric(prior.id, s.id);
    RunIsSource(desk.registry, g, steps, j, i);
    SourceFound(g.receipts, steps, j, i + 1);
    BindingMade(desk, g, steps, i, |steps|);
    assert steps[..|steps|] == steps;
  }

  lemma BindableProposal(registry: Registry, g: Gov, s: PlanStep, eligible: seq<PlanStep>)
    requires GovOk(g) && QueuedOk(registry, g.proposals, s) && Bindable(s, g.proposals, eligible)
    ensures s.proposalId.Some? && Dependent(s) && !Bound(s) && WantsBinding(s, g.proposals) && HasPrior(s, eligible)
  {
    if s.proposalId.Some? {
      LookupIsFind(g.proposals, s.proposalId.value);
    } else {
      NoneNotFound(g.proposals);
    }
  }

  lemma {:induction false} NoneNotFound(queue: seq<Proposal>)
    ensures Lookup(queue, None).None?
  {
    if queue != [] { NoneNotFound(queue[..|queue| - 1]); }
  }

  // -------------------------------------------------------------- the handler

  lemma BindingEventEffect(desk: Desk, g: Gov, k: nat, bindings: seq<Binding>, now: Text)
    requires GovOk(g) && k < |g.plans| && g.plans[k].id != "" && FindPlan(g.plans, g.plans[k].id) == k && bindings != []
    ensures var e := BLANK_EVENT.(typ := "tool_plan_result_binding", planId := g.plans[k].id, bindings := bindings,
                                  at := Some(now));
            var g' := Emit(desk, g, e);
            var (q, steps, n) := AllBound(g.proposals, g.plans[k].steps, g.plans[k].boundCount, bindings, Some(now));
            && GovOk(g') && g'.proposals == q && g'.receipts == g.receipts
            && k < |g'.plans| && Replaced(g, g', k, g'.plans[k]) && g'.plans[k].steps == steps
  {
    var e := BLANK_EVENT.(typ := "tool_plan_result_binding", planId := g.plans[k].id, bindings := bindings,
                          at := Some(now));
    ReduceKeeps(desk.env, g, e);
    BindingReduces(desk.env, g, e);
  }

  lemma BindingReduces(env: Env, g: Gov, e: Event)
    requires e.typ == "tool_plan_result_binding"
    ensures Reduce(env, g, e) == Ok(ReduceBinding(g, e))
  {
    BindingIsOther(env, g, e);
    assert e.typ !in PLAN_EVENTS && e.typ != "user_intent";
  }

  lemma BindingIsOther(env: Env, g: Gov, e: Event)
    requires e.typ == "tool_plan_result_binding"
    ensures ReduceOther(env, g, e) == ReduceBinding(g, e)
  {
  }

  lemma BoundNoDecision(g: Gov, g': Gov, k: nat)
    requires SameQueue(g.proposals, g'.proposals) && k < |g'.plans| && Replaced(g, g', k, g'.plans[k])
    ensures NoDecision(g, g')
  {
    forall i ensures SameReview(g.proposals, g'.proposals, i) {}
  }

  /** Applying bindings to a plan undoes nothing and decides nothing. */
  ghost predicate NotBack(desk: Desk, g: Gov, g': Gov, k: nat)
    requires k < |g.plans|
  {
    && PlanInv(desk, g', k) && g'.plans[k].id == g.plans[k].id
    && StepsProgress(g.plans[k].steps, g'.plans[k].steps)
    && Measure(g'.plans[k].steps) <= Measure(g.plans[k].steps)
    && NoDecision(g, g')
  }

  lemma BoundNotBack(desk: Desk, g: Gov, g': Gov, k: nat, bindings: seq<Binding>, at: Option<Text>)
    requires PlanInv(desk, g, k) && GovOk(g') && k < |g'.plans| && Replaced(g, g', k, g'.plans[k]) && NonEmpty(bindings)
    requires var (q, steps, n) := AllBound(g.proposals, g.plans[k].steps, g.plans[k].boundCount, bindings, at);
             g'.proposals == q && g'.receipts == g.receipts && g'.plans[k].steps == steps
    ensures NotBack(desk, g, g', k)
    ensures forall i :: 0 <= i < |g.plans[k].steps| ==> Work(g'.plans[k].steps[i]) <= Work(g.plans[k].steps[i])
    ensures var s := g.plans[k].steps;
            forall i ::
                0 <= i < |s| && BindsNow(g.proposals, bindings, s[i]) ==> Work(g'.plans[k].steps[i]) < Work(s[i])
  {
    var plan := g.plans[k];
    AllStepsBound(desk.registry, g, g', plan.steps, plan.boundCount, bindings, at);
    AllBoundSame(g.proposals, plan.steps, plan.boundCount, bindings, at);
    PlanInvAgain(desk, g, g', k, g'.plans[k]);
    BoundNoDecision(g, g', k);
    ProgressWorks(plan.steps, g'.plans[k].steps);
  }

  /** The binding handler, called at any time: it keeps the invariant and never raises the
      work left, also when it binds a step again or finds nothing to bind. */
  lemma BindingNotBack(desk: Desk, g: Gov, k: nat, now: Text)
    requires PlanInv(desk, g, k)
    ensures NotBack(desk, g, BindResults(desk, g, g.plans[k].id, now).0, k)
  {
    var plan := g.plans[k];
    var bindings := Bindings(desk, g, plan.steps);
    if bindings == [] {
      NothingBack(desk, g, k);
    } else {
      BindingsNonEmpty(desk, g, plan.steps);
      BindingEventEffect(desk, g, k, bindings, now);
      BoundNotBack(desk, g, BindResults(desk, g, plan.id, now).0, k, bindings, Some(now));
    }
  }

  lemma NothingBack(desk: Desk, g: Gov, k: nat)
    requires PlanInv(desk, g, k)
    ensures NotBack(desk, g, g, k)
  {
    forall i ensures SameReview(g.proposals, g.proposals, i) {}
  }

  lemma BindingAdvances(desk: Desk, g: Gov, k: nat, i: nat, now: Text)
    requires GuidedInv(desk, g, k) && i < |g.plans[k].steps|
    requires var steps := g.plans[k].steps; Eligible(steps[i]) && Bindable(steps[i], g.proposals, EligibleSteps(steps))
    ensures var (g', answer) := BindResults(desk, g, g.plans[k].id, now); answer == Done && Forward(desk, g, g', k)
  {
    BindableIsApplied(desk, g, k, i);
    BindsForward(desk, g, k, i, now);
  }

  /** A binding that applies to a waiting step is progress. */
  lemma BindsForward(desk: Desk, g: Gov, k: nat, i: nat, now: Text)
    requires PlanInv(desk, g, k) && i < |g.plans[k].steps|
    requires var steps := g.plans[k].steps; BindsNow(g.proposals, Bindings(desk, g, steps), steps[i])
    ensures var (g', answer) := BindResults(desk, g, g.plans[k].id, now); answer == Done && Forward(desk, g, g', k)
  {
    var plan := g.plans[k];
    var bindings := Bindings(desk, g, plan.steps);
    assert bindings != [];
    BindingsNonEmpty(desk, g, plan.steps);
    BindingEventEffect(desk, g, k, bindings, now);
    BoundForward(desk, g, BindResults(desk, g, plan.id, now).0, k, i, bindings, Some(now));
  }

  lemma BoundForward(desk: Desk, g: Gov, g': Gov, k: nat, i: nat, bindings: seq<Binding>, at: Option<Text>)
    requires PlanInv(desk, g, k) && GovOk(g') && k < |g'.plans| && Replaced(g, g', k, g'.plans[k]) && NonEmpty(bindings)
    requires var (q, steps, n) := AllBound(g.proposals, g.plans[k].steps, g.plans[k].boundCount, bindings, at);
             g'.proposals == q && g'.receipts == g.receipts && g'.plans[k].steps == steps
    requires i < |g.plans[k].steps| && BindsNow(g.proposals, bindings, g.plans[k].steps[i])
    ensures Forward(desk, g, g', k)
  {
    BoundNotBack(desk, g, g', k, bindings, at);
    MeasureDrops(g.plans[k].steps, g'.plans[k].steps, i);
  }
}
