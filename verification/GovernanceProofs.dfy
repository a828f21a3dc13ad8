/** What holds in every governance state an event log can lead to. */
module GovernanceProofs {
  import opened Collections
  import opened Governance

  /** The governance state after a log; an event that raises is skipped. */
  function After(env: Env, g: Gov, log: seq<Event>): Gov
    decreases |log|
  {
    if log == [] then g
    else
      var before := After(env, g, log[..|log| - 1]);
      var next := Reduce(env, before, log[|log| - 1]);
      if next.Raised? then before else next.value
  }

  lemma {:induction false} AfterConcat(env: Env, g: Gov, a: seq<Event>, b: seq<Event>)
    ensures After(env, g, a + b) == After(env, After(env, g, a), b)
    decreases |b|
  {
    if b == [] {
      assert a + b == a;
    } else {
      assert (a + b)[..|a + b| - 1] == a + b[..|b| - 1];
      AfterConcat(env, g, a, b[..|b| - 1]);
    }
  }

  // ----------------------------------------------------------- id uniqueness

  predicate Digits(s: Text) {
    forall i :: 0 <= i < |s| ==> '0' <= s[i] <= '9'
  }

  function Parse(s: Text): nat
    requires Digits(s)
  {
    if s == "" then 0 else 10 * Parse(s[..|s| - 1]) + (s[|s| - 1] - '0') as nat
  }

  lemma {:induction false} ParseDecimal(n: nat)
    ensures Digits(Decimal(n)) && Parse(Decimal(n)) == n
  {
    if n < 10 {
      assert Decimal(n)[..0] == "";
    } else {
      ParseDecimal(n / 10);
      assert Decimal(n)[..|Decimal(n)| - 1] == Decimal(n / 10);
    }
  }

  lemma {:induction false} ParseZero(s: Text)
    requires Digits(s)
    ensures Digits("0" + s) && Parse("0" + s) == Parse(s)
  {
    var z := "0" + s;
    if s == "" {
      assert z[..|z| - 1] == "";
    } else {
      ParseZero(s[..|s| - 1]);
      assert z[..|z| - 1] == "0" + s[..|s| - 1];
    }
  }

  lemma ParseZeros(d: Text)
    requires Digits(d)
    ensures Digits("00" + d) && Parse("00" + d) == Parse(d)
    ensures Digits("000" + d) && Parse("000" + d) == Parse(d)
  {
    ParseZero(d);
    ParseZero("0" + d);
    assert "00" + d == "0" + ("0" + d);
    ParseZero("00" + d);
    assert "000" + d == "0" + ("00" + d);
  }

  lemma ParsePad4(n: nat)
    ensures Digits(Pad4(n)) && Parse(Pad4(n)) == n
  {
    ParseDecimal(n);
    ParsePadded(Decimal(n), Pad4(n));
  }

  lemma ParsePadded(d: Text, padded: Text)
    requires Digits(d) && (padded == d || padded == "0" + d || padded == "00" + d || padded == "000" + d)
    ensures Digits(padded) && Parse(padded) == Parse(d)
  {
    ParseZero(d);
    ParseZeros(d);
  }

  /** The part of a proposal id that names its place in the queue. */
  function Slot(index: nat): Text {
    "proposal_" + Pad4(index + 1) + "_"
  }

  predicate HasSlot(id: Text, index: nat) {
    Slot(index) <= id
  }

  /** Two digit strings that the same text starts with, each followed by an underscore. */
  lemma SameDigits(a: Text, b: Text, text: Text)
    requires Digits(a) && Digits(b) && a + "_" <= text && b + "_" <= text
    ensures a == b
  {
    assert text[|a|] == '_' by { assert (a + "_")[|a|] == '_'; }
    assert text[|b|] == '_' by { assert (b + "_")[|b|] == '_'; }
    assert a <= text && b <= text by {
      assert a == (a + "_")[..|a|] && b == (b + "_")[..|b|];
    }
  }

  lemma SlotTail(id: Text, i: nat)
    requires HasSlot(id, i)
    ensures |id| >= 9 && Pad4(i + 1) + "_" <= id[9..]
  {
    assert Slot(i) == "proposal_" + (Pad4(i + 1) + "_");
    assert Slot(i)[9..] == Pad4(i + 1) + "_";
    assert id[..|Slot(i)|][9..] == id[9..][..|Slot(i)| - 9];
  }

  /** An id fits one place only: the digits end at the underscore. */
  lemma SlotUnique(id: Text, i: nat, j: nat)
    requires HasSlot(id, i) && HasSlot(id, j)
    ensures i == j
  {
    ParsePad4(i + 1);
    ParsePad4(j + 1);
    SlotTail(id, i);
    SlotTail(id, j);
    SameDigits(Pad4(i + 1), Pad4(j + 1), id[9..]);
  }

  lemma BuiltHasSlot(env: Env, index: nat, intent: Text, actionClass: Text)
    ensures HasSlot(ProposalId(env, index, intent, actionClass), index)
  {
  }

  // -------------------------------------------------------- the invariant

  /** Proposal `i` carries the id of place `i`, and its status says whether it is reviewed. */
  ghost predicate ProposalOk(queue: seq<Proposal>, i: int) {
    0 <= i < |queue| ==>
      HasSlot(queue[i].id, i) && (queue[i].status == PendingReview <==> queue[i].review == Pending)
  }

  ghost predicate QueueOk(queue: seq<Proposal>) {
    forall i {:trigger ProposalOk(queue, i)} :: ProposalOk(queue, i)
  }

  predicate CountersOk(g: Gov) {
    Refresh(g) == g
  }

  ghost predicate GovOk(g: Gov) {
    QueueOk(g.proposals) && CountersOk(g) && !g.externalActionExecuted
  }

  lemma IdsDistinct(queue: seq<Proposal>, i: nat, j: nat)
    requires QueueOk(queue) && i < |queue| && j < |queue| && queue[i].id == queue[j].id
    ensures i == j
  {
    assert ProposalOk(queue, i) && ProposalOk(queue, j);
    SlotUnique(queue[i].id, i, j);
  }

  lemma FindIs(queue: seq<Proposal>, i: nat)
    requires QueueOk(queue) && i < |queue|
    ensures FindProposal(queue, queue[i].id) == i
  {
    var k := FindProposal(queue, queue[i].id);
    IdsDistinct(queue, i, k);
  }

  // ------------------------------------------------- what one event may change

  /** A reviewed proposal is frozen; a pending one may be reviewed or be given arguments. */
  ghost predicate Evolves(p: Proposal, p': Proposal) {
    && p'.id == p.id && p'.kind == p.kind && p'.intent == p.intent && p'.actionClass == p.actionClass
    && p'.meta == p.meta.(toolArguments := p'.meta.toolArguments)
    && (p.review != Pending ==> p' == p)
  }

  ghost predicate ProposalStep(q: seq<Proposal>, q': seq<Proposal>, i: int) {
    0 <= i < |q| ==> i < |q'| && Evolves(q[i], q'[i])
  }

  ghost predicate QueueStep(q: seq<Proposal>, q': seq<Proposal>) {
    |q| <= |q'| && forall i {:trigger ProposalStep(q, q', i)} :: ProposalStep(q, q', i)
  }

  lemma SameQueueStep(q: seq<Proposal>)
    ensures QueueStep(q, q)
  {
    forall i ensures ProposalStep(q, q, i) {}
  }

  lemma UpdateStep(q: seq<Proposal>, i: nat, p: Proposal)
    requires i < |q| && Evolves(q[i], p)
    ensures QueueStep(q, q[i := p])
  {
    var r := q[i := p];
    forall k ensures ProposalStep(q, r, k) {}
  }

  lemma UpdateOk(q: seq<Proposal>, i: nat, p: Proposal)
    requires QueueOk(q) && i < |q| && p.id == q[i].id && (p.status == PendingReview <==> p.review == Pending)
    ensures QueueOk(q[i := p])
  {
    var r := q[i := p];
    forall k ensures ProposalOk(r, k) { assert ProposalOk(q, k); }
  }

  lemma AppendOk(q: seq<Proposal>, p: Proposal)
    requires QueueOk(q) && HasSlot(p.id, |q|) && p.status == PendingReview && p.review == Pending
    ensures QueueOk(q + [p]) && QueueStep(q, q + [p])
  {
    var r := q + [p];
    forall k ensures ProposalOk(r, k) { assert ProposalOk(q, k); }
    forall k ensures ProposalStep(q, r, k) {}
  }

  lemma StepTrans(a: seq<Proposal>, b: seq<Proposal>, c: seq<Proposal>)
    requires QueueStep(a, b) && QueueStep(b, c)
    ensures QueueStep(a, c)
  {
    forall i ensures ProposalStep(a, c, i) { assert ProposalStep(a, b, i) && ProposalStep(b, c, i); }
  }

  lemma {:induction false} AllBoundKeeps(q: seq<Proposal>, steps: seq<PlanStep>, count: nat, bindings: seq<Binding>,
                                         at: Option<Text>)
    requires QueueOk(q)
    ensures var q' := AllBound(q, steps, count, bindings, at).0; QueueOk(q') && QueueStep(q, q')
    decreases |bindings|
  {
    if bindings == [] {
      SameQueueStep(q);
    } else {
      var (q1, s1, n1) := AllBound(q, steps, count, bindings[..|bindings| - 1], at);
      AllBoundKeeps(q, steps, count, bindings[..|bindings| - 1], at);
      var b := bindings[|bindings| - 1];
      var i := FindProposal(q1, b.proposalId);
      if i < |q1| && q1[i].review == Pending {
        var p := q1[i].(meta := q1[i].meta.(toolArguments := Some(b.arguments)), binding := Some(BindingOf(b, at)));
        assert ProposalOk(q1, i);
        UpdateOk(q1, i, p);
        UpdateStep(q1, i, p);
        StepTrans(q, q1, q1[i := p]);
      }
    }
  }

  ghost predicate Kept(g: Gov, g': Gov) {
    GovOk(g') && QueueStep(g.proposals, g'.proposals)
  }

  lemma EnqueueKeeps(g: Gov, p: Proposal)
    requires GovOk(g) && HasSlot(p.id, |g.proposals|) && p.status == PendingReview && p.review == Pending
    ensures Kept(g, Enqueue(g, p))
  {
    AppendOk(g.proposals, p);
  }

  lemma IntentKeeps(env: Env, g: Gov, e: Event)
    requires GovOk(g)
    ensures ReduceIntent(env, g, e).Ok? ==> Kept(g, ReduceIntent(env, g, e).value)
  {
    var (cls, reasons) := Judge(env, g, e);
    SameQueueStep(g.proposals);
    if cls.Some? {
      var kind := if e.meta.toolId == Some("memory.propose") then Memory else Action;
      BuiltHasSlot(env, |g.proposals|, e.intent, cls.value);
      EnqueueKeeps(g, BuildProposal(env, |g.proposals|, e.intent, cls.value, reasons, kind, e.meta));
      assert g.(externalActionExecuted := false) == g;
    }
  }

  lemma MemoryKeeps(env: Env, g: Gov, e: Event)
    requires GovOk(g)
    ensures Kept(g, ReduceMemory(env, g, e))
  {
    SameQueueStep(g.proposals);
    var intent := if e.memoryId == "" then "memory proposal" else e.memoryId;
    BuiltHasSlot(env, |g.proposals|, intent, "propose_memory");
    EnqueueKeeps(g,
                 BuildProposal(env, |g.proposals|, intent, "propose_memory", ["memory proposal requires review"],
                               Memory, NO_META));
  }

  lemma ReviewKeeps(g: Gov, e: Event)
    requires GovOk(g)
    ensures Kept(g, ReduceReview(g, e))
  {
    SameQueueStep(g.proposals);
    var decision := Decision(e.decision);
    var i := FindProposal(g.proposals, e.proposalId);
    if decision.Some? && i < |g.proposals| && g.proposals[i].review == Pending {
      var p := ReviewedAs(g.proposals[i], decision.value, e.reason, EventTime(e));
      UpdateOk(g.proposals, i, p);
      UpdateStep(g.proposals, i, p);
    }
  }

  lemma BindingKeeps(g: Gov, e: Event)
    requires GovOk(g)
    ensures Kept(g, ReduceBinding(g, e))
  {
    SameQueueStep(g.proposals);
    var i := FindPlan(g.plans, e.planId);
    if i < |g.plans| { AllBoundKeeps(g.proposals, g.plans[i].steps, g.plans[i].boundCount, e.bindings, e.at); }
  }

  ghost predicate Quiet(g: Gov, g': Gov) {
    CountersOk(g') && !g'.externalActionExecuted && g'.proposals == g.proposals
  }

  lemma QuietKept(g: Gov, g': Gov)
    requires GovOk(g) && Quiet(g, g')
    ensures Kept(g, g')
  {
    SameQueueStep(g.proposals);
  }

  lemma PlanAddedQuiet(g: Gov, e: Event)
    requires GovOk(g)
    ensures Quiet(g, ReducePlan(g, e))
  {
  }

  lemma PlanReviewQuiet(g: Gov, e: Event)
    requires GovOk(g)
    ensures Quiet(g, ReducePlanReview(g, e))
  {
  }

  lemma PlanStepsQuiet(g: Gov, e: Event)
    requires GovOk(g)
    ensures Quiet(g, ReduceStepQueue(g, e)) && Quiet(g, ReducePlanExecution(g, e))
  {
  }

  lemma PlanEventKeeps(g: Gov, e: Event)
    requires GovOk(g)
    ensures Quiet(g, ReducePlanEvent(g, e)) && Kept(g, ReducePlanEvent(g, e))
  {
    PlanAddedQuiet(g, e);
    PlanReviewQuiet(g, e);
    PlanStepsQuiet(g, e);
    QuietKept(g, ReducePlanEvent(g, e));
  }

  lemma ExecutionQuiet(env: Env, g: Gov, e: Event)
    requires GovOk(g)
    ensures Quiet(g, ReduceExecution(env, g, e))
  {
  }

  lemma SwitchQuiet(g: Gov, e: Event)
    requires GovOk(g)
    ensures Quiet(g, ReduceSwitch(g, e))
  {
  }

  lemma OtherKeeps(env: Env, g: Gov, e: Event)
    requires GovOk(g)
    ensures Kept(g, ReduceOther(env, g, e))
  {
    if e.typ == "memory_event" { MemoryKeeps(env, g, e); }
    else if e.typ == "proposal_review" { ReviewKeeps(g, e); }
    else if e.typ == "tool_plan_result_binding" { BindingKeeps(g, e); }
    else if e.typ == "execution_request" {
      ExecutionQuiet(env, g, e);
      QuietKept(g, ReduceExecution(env, g, e));
    } else {
      SwitchQuiet(g, e);
      QuietKept(g, ReduceSwitch(g, e));
    }
  }

  lemma ReduceKeeps(env: Env, g: Gov, e: Event)
    requires GovOk(g)
    ensures var out := Reduce(env, g, e); out.Ok? ==> Kept(g, out.value)
  {
    if e.typ == "user_intent" { IntentKeeps(env, g, e); }
    else { PlanEventKeeps(g, e); OtherKeeps(env, g, e); }
  }

  lemma EmptyOk(g: Gov)
    requires g.proposals == [] && g.plans == [] && !g.externalActionExecuted
    requires g.pendingCount == 0 && g.memoryCount == 0 && g.toolCount == 0
    ensures GovOk(g)
  {
  }

  lemma BaselineOk()
    ensures GovOk(BASELINE)
  {
    EmptyOk(BASELINE);
  }

  lemma {:induction false} AfterKeeps(env: Env, g: Gov, log: seq<Event>)
    requires GovOk(g)
    ensures Kept(g, After(env, g, log))
    decreases |log|
  {
    if log == [] {
      SameQueueStep(g.proposals);
    } else {
      var before := After(env, g, log[..|log| - 1]);
      AfterKeeps(env, g, log[..|log| - 1]);
      ReduceKeeps(env, before, log[|log| - 1]);
      var next := Reduce(env, before, log[|log| - 1]);
      if next.Ok? { StepTrans(g.proposals, before.proposals, next.value.proposals); }
    }
  }
}
