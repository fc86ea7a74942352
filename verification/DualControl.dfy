/** Dual control: whether an invoice its policy asks two approvers for is approved by two. The
    policy's number reaches the approval rows only through the tokens the match handler issues. */
module DualControl {
  import opened Wrappers
  import opened InvoiceStatus
  import opened Decision
  import opened Workflow
  import opened WorkflowSafety
  import opened WorkflowRuns
  import opened TokenNotices
  import opened ApprovalQuorum

  /** Rows issued, and tokens still to be issued, are what the last match run asked for; a handler
      that dies takes its remaining tokens with it. */
  ghost predicate Budget(w: World) {
    && (AtApproval(w.db.status) ==> |w.db.approvals| <= Needed(w.db))
    && forall e <- w.execs :: Issuer(w.execs[e]) ==> |w.db.approvals| + TokensLeft(w.execs[e]) == Needed(w.db)
  }

  lemma {:induction false} OutcomeKeepsBudget(w: World, e: ExecId, c: Commit)
    requires Inv(w) && Budget(w) && e in w.execs
    ensures Budget(AdvanceOutcome(w, e, w.execs[e], c))
  {
    if c.ApplySecond? && w.execs[e].Routed? {
      assert w.db.approvals == [] && forall f <- w.execs :: !Issuer(w.execs[f]);
    }
  }

  lemma {:induction false} ExtractKeepsBudget(w: World, e: ExecId, c: Commit)
    requires Inv(w) && Budget(w) && e in w.execs
    ensures Budget(AdvanceExtract(w, e, w.execs[e], c))
  {
    var u := AdvanceExtract(w, e, w.execs[e], c);
    assert u.db.approvals == w.db.approvals && u.db.matchRuns == w.db.matchRuns;
    assert AtApproval(u.db.status) ==> AtApproval(w.db.status);
    assert forall f <- u.execs :: Issuer(u.execs[f]) ==> f in w.execs && u.execs[f] == w.execs[f];
  }

  lemma {:induction false} MatchKeepsBudget(w: World, e: ExecId, c: Commit)
    requires Inv(w) && Budget(w) && e in w.execs
    ensures Budget(AdvanceMatch(w, e, w.execs[e], c))
  {
    var u := AdvanceMatch(w, e, w.execs[e], c);
    assert forall f <- u.execs :: Issuer(u.execs[f]) ==> f in w.execs && u.execs[f] == w.execs[f];
    if u.db.matchRuns != w.db.matchRuns {
      assert ExecOk(w.execs[e], w.db);
      assert forall f <- w.execs :: !Issuer(w.execs[f]);
    }
  }

  lemma {:induction false} TokensKeepBudget(w: World, e: ExecId, c: Commit)
    requires Inv(w) && NoticesOk(w) && Budget(w) && e in w.execs
    ensures Budget(AdvanceTokens(w, e, w.execs[e], c))
  {
    if Issuer(w.execs[e]) {
      assert forall f <- w.execs | f != e :: !Issuer(w.execs[f]);
    }
  }

  lemma {:induction false} HandlerKeepsBudget(w: World, e: ExecId, c: Commit)
    requires Inv(w) && NoticesOk(w) && Budget(w) && e in w.execs
    ensures Budget(Advance(w, e, w.execs[e], c))
  {
    ExtractKeepsBudget(w, e, c);
    MatchKeepsBudget(w, e, c);
    OutcomeKeepsBudget(w, e, c);
    TokensKeepBudget(w, e, c);
  }

  lemma {:induction false} DecisionKeepsBudget(w: World, u: Tables, writer: Writer)
    requires Budget(w) && DecisionShape(w.db, u, writer)
    ensures Budget(w.(db := u))
  {
  }

  lemma {:induction false} StepKeepsBudget(w: World, st: Step)
    requires Inv(w) && NoticesOk(w) && Budget(w)
    ensures Budget(Apply(w, st))
  {
    match st
    case InApp(a, v, now, pick) =>
      InAppShape(w.db, a, v, now, pick);
      DecisionKeepsBudget(w, Apply(w, st).db, InAppDecision);
    case Redeem(h, v, who, now) =>
      LinkShape(w.db, h, v, who, now);
      DecisionKeepsBudget(w, Apply(w, st).db, LinkRedemption);
    case Rerun =>
    case Resolve(_, _, _, _) =>
    case ClaimExtract(_, _) =>
    case ClaimMatch(_) =>
    case Crash(_) =>
    case Do(e, c) => if e in w.execs { HandlerKeepsBudget(w, e, c); }
  }

  lemma {:induction false} RunKeepsBudget(w: World, steps: seq<Step>)
    requires Inv(w) && NoticesOk(w) && Budget(w)
    ensures Budget(Run(w, steps))
    decreases |steps|
  {
    if steps != [] {
      StepKeepsInv(w, steps[0]);
      StepKeepsNotices(w, steps[0]);
      StepKeepsBudget(w, steps[0]);
      RunKeepsBudget(Apply(w, steps[0]), steps[1..]);
    }
  }

  /** Dual control holds exactly when all the tokens the policy asks for were issued before the
      settlement and no link made it while another row was open: for every run that ends APPROVED,
      the approvals are at least as many as the last match run asked for if and only if no step was
      late or early and there are that many rows. */
  lemma {:induction false} DualControlExactly(steps: seq<Step>)
    requires Run(START, steps).db.status == Approved
    ensures var t := Run(START, steps).db;
            && (ApprovedCount(t.approvals) >= Needed(t)
                <==> !Loosened(START, steps) && |t.approvals| == Needed(t))
            && |t.approvals| <= Needed(t)
  {
    var t := Run(START, steps).db;
    RunStands(START, steps, false);
    RunKeepsBudget(START, steps);
    StandingIsQuorum(t, Loosened(START, steps));
    AllApproved(t.approvals);
  }

  /** From the start: a pending invoice for which nobody is issuing another token is decided by all
      its rows, as long as no link is redeemed, and by as many approvers as its match run asked for
      if and only if it has that many rows. */
  lemma {:induction false} PendingUntilIssuedIsDecidedByAll(before: seq<Step>, after: seq<Step>)
    requires NoLinks(after) && Run(START, before).db.approvals != []
    requires AllIssued(Run(START, before)) && Run(START, before).db.status == PendingApproval
    ensures var t := Run(START, before + after).db;
            && Quorum(t) && |t.approvals| == |Run(START, before).db.approvals|
            && (t.status == Approved ==>
                  (ApprovedCount(t.approvals) >= Needed(t) <==> |t.approvals| == Needed(t)))
  {
    RunStands(START, before, false);
    RunJoins(START, before, after);
    LooseJoins(START, before, after);
    InAppDecisionsNeedEveryRow(Run(START, before), after);
    NeverLoose(Run(START, before), after);
    if Run(START, before + after).db.status == Approved { DualControlExactly(before + after); }
  }

  // ---- a token that is never issued -------------------------------------------

  /** The handler dies, or the tenant has no second approver to ask, and the one approver answers. */
  function AloneSteps(actor: Actor, now: Time): seq<Step> {
    [Crash(1), InApp(Some(actor), Approve, now, 0)]
  }

  lemma {:induction false} AloneIsRun(w: World, token: TokenHash, actor: Actor, now: Time)
    requires Inv(w) && FirstTokenOut(w, token, actor.email) && actor.mayDecide && actor.email != ""
    ensures var steps := AloneSteps(actor, now); var u := Run(w, steps);
            && u.db.status == Approved && Needed(u.db) == 2 && |u.db.approvals| == 1 && AllIssued(u)
            && !Loosened(w, steps)
  {
    var w1 := Apply(w, Crash(1));
    assert actor.email in Contacts(actor);
    OnlyRowDecides(w1.db, actor, Approve, now);
    TwoSteps(w, Crash(1), InApp(Some(actor), Approve, now, 0));
    StepKeepsInv(w, Crash(1));
    NeverLoose(w1, AloneSteps(actor, now)[1..]);
  }

  /** No race is needed: for all evidence that asks for two approvers there is a run without links,
      nothing late, the status the verdict of all rows, and yet APPROVED by the one approver whose
      token was issued. */
  lemma {:induction false} LostTokenSettlesAlone(ev: Evidence, token: TokenHash, actor: Actor, now: Time)
    requires Decide(ev) == PendingApprovalBy(2) && actor.mayDecide && actor.email != ""
    ensures exists steps :: var u := Run(START, steps);
              && NoLinks(steps) && !Loosened(START, steps) && AllIssued(u) && Quorum(u.db)
              && u.db.status == Approved && |u.db.approvals| == 1 && Needed(u.db) == 2
  {
    var prefix := FirstTokenIsReached(ev, token, actor.email, now + 1);
    var w := Run(START, prefix);
    var steps := prefix + AloneSteps(actor, now);
    RunStands(START, prefix, false);
    AloneIsRun(w, token, actor, now);
    RunJoins(START, prefix, AloneSteps(actor, now));
    LooseJoins(START, prefix, AloneSteps(actor, now));
    QuorumExactly(steps);
    assert NoLinks(steps);
  }
}
