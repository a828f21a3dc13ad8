/** The main results about proposals, receipts and plans over every event log. */
module GovernanceTheorems {
  import opened Collections
  import opened Governance
  import opened GovernanceProofs
  import EventLog

  function Final(env: Env, log: seq<Event>): Gov {
    After(env, BASELINE, log)
  }

  lemma FinalOk(env: Env, log: seq<Event>)
    ensures GovOk(Final(env, log))
  {
    BaselineOk();
    AfterKeeps(env, BASELINE, log);
  }

  lemma FinalPrefix(env: Env, log: seq<Event>, k: nat)
    requires k <= |log|
    ensures Final(env, log) == After(env, Final(env, log[..k]), log[k..])
    ensures GovOk(Final(env, log[..k])) && Kept(Final(env, log[..k]), Final(env, log))
  {
    FinalOk(env, log[..k]);
    AfterConcat(env, BASELINE, log[..k], log[k..]);
    assert log[..k] + log[k..] == log;
    AfterKeeps(env, Final(env, log[..k]), log[k..]);
  }

  /** The governance part of the process state is determined by its own event log, so
      what is proved below of logs holds of every state a run can reach. */
  lemma {:induction false} StateFromLog<P>(m: EventLog.Machine<P>, start: EventLog.State<P>, raws: seq<Event>)
    requires start.log == [] && start.gov == BASELINE
    ensures var end := EventLog.Absorb(m, start, raws); end.gov == Final(m.env, end.log)
    decreases |raws|
  {
    if raws != [] {
      var before := EventLog.Absorb(m, start, raws[..|raws| - 1]);
      StateFromLog(m, start, raws[..|raws| - 1]);
      var next := EventLog.ReduceEvent(m, before, raws[|raws| - 1]);
      if next.Ok? {
        var e := ValidateEvent(raws[|raws| - 1]).value;
        assert (before.log + [e])[..|before.log|] == before.log;
      }
    }
  }

  // ------------------------------------------------------------ the counters

  ghost function PendingAt(queue: seq<Proposal>): set<int> {
    set i | 0 <= i < |queue| && queue[i].status == PendingReview && queue[i].review == Pending
  }

  ghost function PendingOfKind(queue: seq<Proposal>, kind: Kind): set<int> {
    set i | 0 <= i < |queue| && queue[i].status == PendingReview && queue[i].review == Pending && queue[i].kind == kind
  }

  ghost function PendingPlansAt(plans: seq<Plan>): set<int> {
    set i | 0 <= i < |plans| && (plans[i].review.None? || plans[i].review == Some(Pending))
  }

  lemma {:induction false} PendingCounted(queue: seq<Proposal>)
    ensures PendingProposals(queue) == |PendingAt(queue)|
  {
    if queue == [] {
      assert PendingAt(queue) == {};
    } else {
      var n := |queue| - 1;
      var rest := queue[..n];
      PendingCounted(rest);
      assert PendingAt(queue) == PendingAt(rest) + if IsPending(queue[n]) then {n} else {};
      assert n !in PendingAt(rest);
    }
  }

  lemma {:induction false} KindCounted(queue: seq<Proposal>, kind: Kind)
    ensures PendingProposals(OfKind(queue, kind)) == |PendingOfKind(queue, kind)|
  {
    if queue == [] {
      assert PendingOfKind(queue, kind) == {};
    } else {
      var n := |queue| - 1;
      KindCounted(queue[..n], kind);
      LastOfKind(queue, kind);
      LastPendingOfKind(queue, kind);
    }
  }

  lemma LastOfKind(queue: seq<Proposal>, kind: Kind)
    requires queue != []
    ensures var n := |queue| - 1;
            PendingProposals(OfKind(queue, kind))
            == PendingProposals(OfKind(queue[..n], kind)) + if IsPending(queue[n]) && queue[n].kind == kind then 1
              else 0
  {
    var n := |queue| - 1;
    var kept := OfKind(queue[..n], kind);
    assert (kept + [queue[n]])[..|kept|] == kept;
  }

  lemma LastPendingOfKind(queue: seq<Proposal>, kind: Kind)
    requires queue != []
    ensures var n := |queue| - 1;
            |PendingOfKind(queue, kind)|
            == |PendingOfKind(queue[..n], kind)| + if IsPending(queue[n]) && queue[n].kind == kind then 1 else 0
  {
    var n := |queue| - 1;
    var all, before := PendingOfKind(queue, kind), PendingOfKind(queue[..n], kind);
    var counts := IsPending(queue[n]) && queue[n].kind == kind;
    forall x: int ensures x in all <==> x in before || (x == n && counts) {
      if 0 <= x < n { assert queue[..n][x] == queue[x]; }
    }
    assert n !in before;
    assert all == if counts then before + {n} else before;
  }

  lemma {:induction false} PlansCounted(plans: seq<Plan>)
    ensures PendingPlans(plans) == |PendingPlansAt(plans)|
  {
    if plans == [] {
      assert PendingPlansAt(plans) == {};
    } else {
      var n := |plans| - 1;
      var rest := plans[..n];
      PlansCounted(rest);
      assert PendingPlansAt(plans) == PendingPlansAt(rest) + if PlanPending(plans[n]) then {n} else {};
      assert n !in PendingPlansAt(rest);
    }
  }

  /** After any log the stored counters are what a recount of the two queues gives. */
  lemma CountersAgree(env: Env, log: seq<Event>)
    ensures var g := Final(env, log);
            && g.pendingCount == |PendingAt(g.proposals)| + |PendingPlansAt(g.plans)|
            && g.memoryCount == |PendingOfKind(g.proposals, Memory)|
            && g.toolCount == |PendingOfKind(g.proposals, Action)| + |PendingPlansAt(g.plans)|
            && g.pendingCount == g.memoryCount + g.toolCount
  {
    var g := Final(env, log);
    FinalOk(env, log);
    PendingCounted(g.proposals);
    KindCounted(g.proposals, Memory);
    KindCounted(g.proposals, Action);
    PlansCounted(g.plans);
    assert PendingAt(g.proposals) == PendingOfKind(g.proposals, Memory) + PendingOfKind(g.proposals, Action);
    assert PendingOfKind(g.proposals, Memory) !! PendingOfKind(g.proposals, Action);
  }

  // ------------------------------------------------------- frozen by review

  /** Proposal ids never repeat, and a place in the queue keeps its proposal. */
  lemma ProposalIdsDistinct(env: Env, log: seq<Event>, k: nat, i: nat, j: nat)
    requires k <= |log| && i < |Final(env, log[..k]).proposals| && j < |Final(env, log).proposals|
    ensures i < |Final(env, log).proposals| && Final(env, log).proposals[i].id == Final(env, log[..k]).proposals[i].id
    ensures Final(env, log).proposals[i].id == Final(env, log).proposals[j].id <==> i == j
  {
    FinalPrefix(env, log, k);
    FinalOk(env, log);
    assert ProposalStep(Final(env, log[..k]).proposals, Final(env, log).proposals, i);
    if Final(env, log).proposals[i].id == Final(env, log).proposals[j].id {
      IdsDistinct(Final(env, log).proposals, i, j);
    }
  }

  /** Once reviewed, a proposal never changes again in any respect. */
  lemma ReviewFreezes(env: Env, log: seq<Event>, k: nat, i: nat)
    requires k <= |log| && i < |Final(env, log[..k]).proposals| && Final(env, log[..k]).proposals[i].review != Pending
    ensures i < |Final(env, log).proposals| && Final(env, log).proposals[i] == Final(env, log[..k]).proposals[i]
  {
    FinalPrefix(env, log, k);
    assert ProposalStep(Final(env, log[..k]).proposals, Final(env, log).proposals, i);
  }

  ghost predicate SameReviews(q: seq<Proposal>, q': seq<Proposal>) {
    |q'| == |q| && forall i :: 0 <= i < |q| ==> q'[i].review == q[i].review
  }

  lemma {:induction false} BindingReviewsNothing(q: seq<Proposal>, steps: seq<PlanStep>, count: nat,
                                                 bindings: seq<Binding>, at: Option<Text>)
    ensures SameReviews(q, AllBound(q, steps, count, bindings, at).0)
    decreases |bindings|
  {
    if bindings != [] {
      BindingReviewsNothing(q, steps, count, bindings[..|bindings| - 1], at);
    }
  }

  /** A denied proposal was denied in so many words, an approved one approved. */
  ghost predicate DecidedBy(e: Event, review: Review) {
    && (review == Approved <==> e.decision == "approved")
    && (review == Denied <==> e.decision == "denied")
  }

  /** The event that reviewed proposal `i`. */
  ghost predicate ReviewsHere(g: Gov, e: Event, p: Proposal) {
    && e.typ == "proposal_review" && e.proposalId == p.id && DecidedBy(e, p.review)
    && exists before :: before in g.proposals && before.id == p.id && before.review == Pending
         && p == ReviewedAs(before, p.review, e.reason, EventTime(e))
  }

  lemma ReviewReviews(g: Gov, e: Event, i: nat)
    requires e.typ == "proposal_review"
    requires var q := ReduceReview(g, e).proposals; i < |q| && q[i].review != Pending
    requires i < |g.proposals| ==> g.proposals[i].review == Pending
    ensures ReviewsHere(g, e, ReduceReview(g, e).proposals[i])
  {
    var k := FindProposal(g.proposals, e.proposalId);
    assert k < |g.proposals| ==> g.proposals[k] in g.proposals;
  }

  /** No other event turns a pending proposal into a reviewed one, or adds a reviewed one. */
  lemma OthersReviewNothing(env: Env, g: Gov, e: Event, i: nat)
    requires GovOk(g) && e.typ != "proposal_review" && e.typ != "user_intent" && e.typ !in PLAN_EVENTS
    requires i < |g.proposals| ==> g.proposals[i].review == Pending
    ensures var q := ReduceOther(env, g, e).proposals; i < |q| ==> q[i].review == Pending
  {
    if e.typ == "tool_plan_result_binding" { BindingEventReviewsNothing(g, e, i); }
    else if e.typ == "memory_event" { MemoryReviewsNothing(env, g, e, i); }
  }

  lemma BindingEventReviewsNothing(g: Gov, e: Event, i: nat)
    requires GovOk(g) && (i < |g.proposals| ==> g.proposals[i].review == Pending)
    ensures var q := ReduceBinding(g, e).proposals; i < |q| ==> q[i].review == Pending
  {
    var k := FindPlan(g.plans, e.planId);
    if k < |g.plans| {
      BindingReviewsNothing(g.proposals, g.plans[k].steps, g.plans[k].boundCount, e.bindings, e.at);
    }
  }

  lemma MemoryReviewsNothing(env: Env, g: Gov, e: Event, i: nat)
    requires i < |g.proposals| ==> g.proposals[i].review == Pending
    ensures var q := ReduceMemory(env, g, e).proposals; i < |q| ==> q[i].review == Pending
  {
  }

  lemma IntentReviewsNothing(env: Env, g: Gov, e: Event, i: nat)
    requires i < |g.proposals| ==> g.proposals[i].review == Pending
    ensures ReduceIntent(env, g, e).Ok? ==>
              var q := ReduceIntent(env, g, e).value.proposals; i < |q| ==> q[i].review == Pending
  {
  }

  lemma OnlyReviewsReview(env: Env, g: Gov, e: Event, i: nat)
    requires GovOk(g) && Reduce(env, g, e).Ok?
    requires var q := Reduce(env, g, e).value.proposals; i < |q| && q[i].review != Pending
    requires i < |g.proposals| ==> g.proposals[i].review == Pending
    ensures ReviewsHere(g, e, Reduce(env, g, e).value.proposals[i])
  {
    if e.typ == "user_intent" {
      IntentReviewsNothing(env, g, e, i);
    } else if e.typ in PLAN_EVENTS {
      PlanEventKeeps(g, e);
    } else if e.typ == "proposal_review" {
      ReviewReviews(g, e, i);
    } else {
      OthersReviewNothing(env, g, e, i);
    }
  }

  /** Event `e`, taken in state `before`, approved or denied proposal `i`, turning it
      into `p` with its tool fields untouched. */
  ghost predicate Reviews(before: Gov, e: Event, after: Gov, i: nat, p: Proposal) {
    && e.typ == "proposal_review" && e.proposalId == p.id && DecidedBy(e, p.review)
    && i < |before.proposals| && before.proposals[i].id == p.id
    && before.proposals[i].review == Pending && before.proposals[i].meta == p.meta
    && i < |after.proposals| && after.proposals[i] == p
  }

  lemma ReviewedNow(env: Env, g: Gov, e: Event, i: nat)
    requires GovOk(g) && Reduce(env, g, e).Ok?
    requires var q := Reduce(env, g, e).value.proposals; i < |q| && q[i].review != Pending
    requires i < |g.proposals| ==> g.proposals[i].review == Pending
    ensures var after := Reduce(env, g, e).value; Reviews(g, e, after, i, after.proposals[i])
  {
    OnlyReviewsReview(env, g, e, i);
    ReduceKeeps(env, g, e);
    var q := Reduce(env, g, e).value.proposals;
    var was :| was in g.proposals && was.id == q[i].id && was.review == Pending
               && q[i] == ReviewedAs(was, q[i].review, e.reason, EventTime(e));
    var j :| 0 <= j < |g.proposals| && g.proposals[j] == was;
    assert ProposalStep(g.proposals, q, j);
    IdsDistinct(q, i, j);
  }

  /** A reviewed proposal was reviewed by exactly that event of the log: before it the
      proposal was pending with the same tool fields, after it nothing changed. */
  lemma {:induction false} ReviewTraces(env: Env, log: seq<Event>, i: nat) returns (k: nat)
    requires i < |Final(env, log).proposals| && Final(env, log).proposals[i].review != Pending
    ensures k < |log|
    ensures Reviews(Final(env, log[..k]), log[k], Final(env, log[..k + 1]), i, Final(env, log).proposals[i])
  {
    var n := |log| - 1;
    var before := Final(env, log[..n]);
    FinalOk(env, log[..n]);
    assert log[..n + 1] == log;
    if Reduce(env, before, log[n]).Raised? || (i < |before.proposals| && before.proposals[i].review != Pending) {
      if i < |before.proposals| { ReviewFreezes(env, log, n, i); }
      k := ReviewTraces(env, log[..n], i);
      assert log[..n][..k] == log[..k] && log[..n][..k + 1] == log[..k + 1];
    } else {
      ReviewedNow(env, before, log[n], i);
      k := n;
    }
  }

  // ---------------------------------------------------------------- receipts

  lemma PlanEventsIssueNothing(g: Gov, e: Event)
    ensures ReducePlanEvent(g, e).receipts == g.receipts
  {
  }

  lemma OthersIssueNothing(env: Env, g: Gov, e: Event)
    requires e.typ != "execution_request"
    ensures ReduceOther(env, g, e).receipts == g.receipts
  {
  }

  lemma IntentIssuesNothing(env: Env, g: Gov, e: Event)
    ensures ReduceIntent(env, g, e).Ok? ==> ReduceIntent(env, g, e).value.receipts == g.receipts
  {
  }

  lemma OnlyRequestsIssue(env: Env, g: Gov, e: Event)
    requires Reduce(env, g, e).Ok?
    ensures var r := Reduce(env, g, e).value.receipts;
            var i := FindProposal(g.proposals, e.proposalId);
            if e.typ == "execution_request" && i < |g.proposals|
            then r == g.receipts
              + [BuildReceipt(env, |g.receipts|, g.proposals[i], EventTime(e), e.reason, e.dryRun, e.output)]
            else r == g.receipts
  {
    if e.typ == "execution_request" {
      assert Reduce(env, g, e) == Ok(ReduceExecution(env, g, e));
    } else {
      PlanEventsIssueNothing(g, e);
      OthersIssueNothing(env, g, e);
      IntentIssuesNothing(env, g, e);
    }
  }

  /** Every receipt was issued by an execution request of the log, for the proposal as it
      stood at that moment. */
  lemma {:induction false} ReceiptTraces(env: Env, log: seq<Event>, n: nat) returns (k: nat, i: nat)
    requires n < |Final(env, log).receipts|
    ensures k < |log| && log[k].typ == "execution_request"
    ensures var g := Final(env, log[..k]);
            && i < |g.proposals| && g.proposals[i].id == log[k].proposalId && |g.receipts| == n
            && Final(env, log).receipts[n]
               == BuildReceipt(env, n, g.proposals[i], EventTime(log[k]), log[k].reason, log[k].dryRun, log[k].output)
  {
    var m := |log| - 1;
    var before := Final(env, log[..m]);
    if Reduce(env, before, log[m]).Ok? {
      OnlyRequestsIssue(env, before, log[m]);
    }
    if n < |before.receipts| {
      k, i := ReceiptTraces(env, log[..m], n);
      assert log[..m][..k] == log[..k];
    } else {
      k, i := m, FindProposal(before.proposals, log[m].proposalId);
    }
  }

  /** Whatever was executed read-only, or dry-run, was approved first: an earlier event of
      the log approved that proposal, and it was executed with the very tool and arguments
      that were approved, which are also the ones it still has. */
  lemma ExecutionTracesToApproval(env: Env, log: seq<Event>, n: nat) returns (j: nat, k: nat, i: nat)
    requires n < |Final(env, log).receipts|
    requires Final(env, log).receipts[n].status in {"executed_read_only", "dry_run_only_not_executed",
                                                    "blocked_side_effect"}
    ensures j < k < |log| && log[j].typ == "proposal_review" && log[k].typ == "execution_request"
    ensures log[j].decision == "approved"
    ensures var reviewed, asked := Final(env, log[..j]), Final(env, log[..k]);
            var p := Final(env, log).proposals;
            && log[j].proposalId == log[k].proposalId == Final(env, log).receipts[n].proposalId
            && i < |reviewed.proposals| && i < |asked.proposals| && i < |p|
            && p[i].id == log[j].proposalId && p[i].review == Approved
            && reviewed.proposals[i].review == Pending && reviewed.proposals[i].meta == p[i].meta
            && asked.proposals[i] == p[i]
            && Final(env, log).receipts[n].toolId == reviewed.proposals[i].meta.toolId
  {
    k, i := ReceiptTraces(env, log, n);
    var asked := Final(env, log[..k]);
    assert asked.proposals[i].review == Approved;
    ReviewFreezes(env, log, k, i);
    j := ReviewTraces(env, log[..k], i);
    assert log[..k][..j] == log[..j];
  }
}
