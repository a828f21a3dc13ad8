/** Queueing the steps of a plan: every candidate gets a proposal of its own. */
module PlanQueueing {
  import opened Collections
  import opened Governance
  import opened GovernanceProofs
  import opened ToolArguments
  import opened PlanRunner
  import opened PlanInvariant

  /** New proposals were appended; nothing else the runner looks at changed. */
  ghost predicate Appended(g: Gov, g': Gov) {
    && g'.plans == g.plans && g'.receipts == g.receipts && g.proposals <= g'.proposals
    && (forall i :: |g.proposals| <= i < |g'.proposals| ==> g'.proposals[i].review == Pending)
  }

  lemma AppendedTrans(a: Gov, b: Gov, c: Gov)
    requires Appended(a, b) && Appended(b, c)
    ensures Appended(a, c)
  {
  }

  /** Proposal `id` is queued, and is for this step's tool and arguments. */
  ghost predicate QueuedFor(registry: Registry, queue: seq<Proposal>, id: Option<Text>, s: PlanStep) {
    && id.Some? && id.value != ""
    && var m := FindProposal(queue, id.value);
       m < |queue| && Fits(registry, queue[m], s) && queue[m].meta.toolArguments == Some(s.arguments)
  }

  lemma QueuedForStable(registry: Registry, a: seq<Proposal>, b: seq<Proposal>, id: Option<Text>, s: PlanStep)
    requires QueuedFor(registry, a, id, s) && a <= b
    ensures QueuedFor(registry, b, id, s)
  {
    FindProposalStable(a, b, id.value);
  }

  lemma BuiltIdNotEmpty(env: Env, index: nat, intent: Text, actionClass: Text)
    ensures ProposalId(env, index, intent, actionClass) != ""
  {
  }

  lemma IntentAppends(env: Env, g: Gov, e: Event)
    requires GovOk(g) && e.typ == "user_intent" && Truthy(e.meta.toolId) && e.actionClass.Some?
    ensures var out := Reduce(env, g, e);
            && out.Ok? && Kept(g, out.value) && Appended(g, out.value)
            && |out.value.proposals| == |g.proposals| + 1
            && out.value.proposals[|g.proposals|].meta == e.meta
            && out.value.proposals[|g.proposals|].id != ""
  {
    ReduceKeeps(env, g, e);
    BuiltIdNotEmpty(env, |g.proposals|, e.intent, e.actionClass.value);
  }

  /** One step: its arguments validate to themselves, so its proposal is queued. */
  lemma QueueOne(desk: Desk, g: Gov, s: PlanStep, reason: Text)
    requires GovOk(g) && RegistryOk(desk.registry) && KnownTool(desk.registry, s)
    requires Validate(desk.registry, s.toolId.value, s.arguments) == Ok(Checked(s.arguments, {}))
    ensures var event := ProposalEvent(desk.registry, s.toolId.value, s.arguments, reason, g.agentMode);
            && event.Ok?
            && var g' := Emit(desk, g, event.value);
               && GovOk(g') && Appended(g, g') && |g'.proposals| == |g.proposals| + 1
               && QueuedFor(desk.registry, g'.proposals, Some(g'.proposals[|g'.proposals| - 1].id), s)
  {
    var event := ProposalEvent(desk.registry, s.toolId.value, s.arguments, reason, g.agentMode).value;
    IntentAppends(desk.env, g, event);
    var g' := Emit(desk, g, event);
    FindIs(g'.proposals, |g.proposals|);
  }

  ghost predicate EntryOk(registry: Registry, queue: seq<Proposal>, steps: seq<PlanStep>, q: QueuedStep, i: int) {
    0 <= i < |steps| && steps[i].id == q.stepId && QueueCandidate(steps[i])
      && QueuedFor(registry, queue, q.proposalId, steps[i])
  }

  ghost predicate Owned(registry: Registry, queue: seq<Proposal>, steps: seq<PlanStep>, queued: seq<QueuedStep>,
                        x: int) {
    0 <= x < |queued| ==> exists i :: EntryOk(registry, queue, steps, queued[x], i)
  }

  ghost predicate Served(steps: seq<PlanStep>, n: nat, queued: seq<QueuedStep>, i: int) {
    0 <= i < n && i < |steps| && QueueCandidate(steps[i]) ==> HasEntry(queued, steps[i].id)
  }

  predicate HasEntry(queued: seq<QueuedStep>, id: Text) {
    queued != [] && (queued[|queued| - 1].stepId == id || HasEntry(queued[..|queued| - 1], id))
  }

  /** Each entry is for one candidate, and each of the first `n` candidates has an entry. */
  ghost predicate Entries(registry: Registry, queue: seq<Proposal>, steps: seq<PlanStep>, n: nat,
                          queued: seq<QueuedStep>) {
    && (forall x {:trigger Owned(registry, queue, steps, queued, x)} :: Owned(registry, queue, steps, queued, x))
    && (forall i {:trigger Served(steps, n, queued, i)} :: Served(steps, n, queued, i))
  }

  lemma EntriesStable(registry: Registry, a: seq<Proposal>, b: seq<Proposal>, steps: seq<PlanStep>, n: nat,
                      queued: seq<QueuedStep>)
    requires Entries(registry, a, steps, n, queued) && a <= b
    ensures Entries(registry, b, steps, n, queued)
  {
    forall x ensures Owned(registry, b, steps, queued, x) {
      assert Owned(registry, a, steps, queued, x);
      if 0 <= x < |queued| {
        var i :| EntryOk(registry, a, steps, queued[x], i);
        QueuedForStable(registry, a, b, queued[x].proposalId, steps[i]);
        assert EntryOk(registry, b, steps, queued[x], i);
      }
    }
  }

  lemma EntriesGrow(registry: Registry, queue: seq<Proposal>, steps: seq<PlanStep>, n: nat, queued: seq<QueuedStep>,
                    q: QueuedStep)
    requires Entries(registry, queue, steps, n, queued) && n < |steps| && EntryOk(registry, queue, steps, q, n)
    ensures Entries(registry, queue, steps, n + 1, queued + [q])
  {
    var more, m := queued + [q], n + 1;
    assert more[..|queued|] == queued;
    forall x ensures Owned(registry, queue, steps, more, x) {
      assert Owned(registry, queue, steps, queued, x);
      if x == |queued| { assert EntryOk(registry, queue, steps, more[x], n); }
    }
    forall i ensures Served(steps, m, more, i) {
      assert Served(steps, n, queued, i);
    }
  }

  lemma EntriesSkip(registry: Registry, queue: seq<Proposal>, steps: seq<PlanStep>, n: nat, queued: seq<QueuedStep>)
    requires Entries(registry, queue, steps, n, queued) && n < |steps| && !QueueCandidate(steps[n])
    ensures Entries(registry, queue, steps, n + 1, queued)
  {
    var m := n + 1;
    forall i ensures Served(steps, m, queued, i) { assert Served(steps, n, queued, i); }
  }

  lemma NextQueued(desk: Desk, g: Gov, plan: Plan, n: nat, prefix: Text, queued: seq<QueuedStep>)
    requires GovOk(g) && RegistryOk(desk.registry) && ShapeOk(desk.registry, plan.steps) && n < |plan.steps|
    requires Entries(desk.registry, g.proposals, plan.steps, n, queued)
    ensures var (g', more) := QueueNext(desk, g, plan, plan.steps[n], prefix, queued);
            && more.Ok? && GovOk(g') && Appended(g, g')
            && Entries(desk.registry, g'.proposals, plan.steps, n + 1, more.value)
  {
    var s := plan.steps[n];
    if QueueCandidate(s) {
      assert Queueable(desk.registry, plan.steps, n);
      QueueOne(desk, g, s, StepReason(plan, s, prefix));
      var g' := Emit(desk, g,
                     ProposalEvent(desk.registry, s.toolId.value, s.arguments, StepReason(plan, s, prefix),
                                   g.agentMode).value);
      EntriesStable(desk.registry, g.proposals, g'.proposals, plan.steps, n, queued);
      var q := QueuedStep(s.id, Some(g'.proposals[|g'.proposals| - 1].id));
      assert EntryOk(desk.registry, g'.proposals, plan.steps, q, n);
      EntriesGrow(desk.registry, g'.proposals, plan.steps, n, queued, q);
    } else {
      EntriesSkip(desk.registry, g.proposals, plan.steps, n, queued);
    }
  }

  /** Queueing never fails on arguments that validate to themselves. */
  lemma {:induction false} QueueingWorks(desk: Desk, g: Gov, plan: Plan, n: nat, prefix: Text)
    requires GovOk(g) && RegistryOk(desk.registry) && ShapeOk(desk.registry, plan.steps) && n <= |plan.steps|
    ensures var (g', queued) := QueueProposals(desk, g, plan, plan.steps[..n], prefix);
            && queued.Ok? && GovOk(g') && Appended(g, g')
            && Entries(desk.registry, g'.proposals, plan.steps, n, queued.value)
    decreases n
  {
    if n == 0 {
      NoEntries(desk.registry, g.proposals, plan.steps);
    } else {
      assert plan.steps[..n][..n - 1] == plan.steps[..n - 1];
      QueueingWorks(desk, g, plan, n - 1, prefix);
      var (g1, queued) := QueueProposals(desk, g, plan, plan.steps[..n - 1], prefix);
      NextQueued(desk, g1, plan, n - 1, prefix, queued.value);
      AppendedTrans(g, g1, QueueNext(desk, g1, plan, plan.steps[n - 1], prefix, queued.value).0);
    }
  }

  lemma {:induction false} NoEntries(registry: Registry, queue: seq<Proposal>, steps: seq<PlanStep>)
    ensures Entries(registry, queue, steps, 0, [])
  {
  }

  /** What the entries do to one step: nothing, or the last entry for it decides. */
  lemma {:induction false} AllQueuedAt(steps: seq<PlanStep>, ids: seq<Text>, queued: seq<QueuedStep>, i: nat)
    returns (x: nat)
    requires i < |steps|
    ensures x <= |queued| && (x < |queued| <==> HasEntry(queued, steps[i].id))
    ensures var s := AllQueued(steps, ids, queued).0[i];
            if x < |queued| then queued[x].stepId == steps[i].id
                                 && s == steps[i].(proposalId := queued[x].proposalId, status := "proposal_queued")
            else s == steps[i]
    decreases |queued|
  {
    x := 0;
    if queued != [] {
      var n := |queued| - 1;
      x := AllQueuedAt(steps, ids, queued[..n], i);
      if queued[n].stepId == steps[i].id { x := n; }
      else if x == n { x := |queued|; }
    }
  }

  /** One step after queueing: a candidate has its own proposal now, the others are as
      they were. */
  lemma StepAfterQueueing(registry: Registry, queue: seq<Proposal>, steps: seq<PlanStep>, ids: seq<Text>,
                          queued: seq<QueuedStep>, i: nat)
    requires ShapeOk(registry, steps) && Entries(registry, queue, steps, |steps|, queued) && i < |steps|
    ensures var s := AllQueued(steps, ids, queued).0[i];
            if QueueCandidate(steps[i])
            then QueuedFor(registry, queue, s.proposalId, steps[i])
                 && s == steps[i].(proposalId := s.proposalId, status := "proposal_queued")
            else s == steps[i]
  {
    var x := AllQueuedAt(steps, ids, queued, i);
    assert Served(steps, |steps|, queued, i);
    assert Owned(registry, queue, steps, queued, x);
    if x < |queued| {
      var j :| EntryOk(registry, queue, steps, queued[x], j);
      assert Increasing(steps, i, j) && Increasing(steps, j, i);
    }
  }
}
