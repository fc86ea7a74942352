/** The approval tokens of one invoice and the notify jobs that announce them
    (`_apply_decision`, apps/worker/worker/match_handler.py): each token is committed first, its
    job second, and the handler may die between the two. */
module TokenNotices {
  import opened Workflow
  import opened WorkflowSafety
  import opened WorkflowRuns

  predicate Issuer(x: Exec) {
    x.Issuing? || x.Announcing?
  }

  /** Every token has its notify job, but for the last one where `x` still owes it. */
  predicate InStep(x: Exec, t: Tables) {
    && (x.Issuing? ==> |t.approvals| == |t.notices|)
    && (x.Announcing? ==> |t.approvals| == |t.notices| + 1 && x.notice == NoticeOf(t.approvals[|t.notices|]))
  }

  /** The notify jobs are those of the tokens, in order, for all of them or all but the last. */
  ghost predicate Announced(t: Tables) {
    && |t.notices| <= |t.approvals| <= |t.notices| + 1
    && forall i :: 0 <= i < |t.notices| ==> t.notices[i] == NoticeOf(t.approvals[i])
  }

  ghost predicate NoticesOk(w: World) {
    && Announced(w.db)
    && (forall e <- w.execs :: InStep(w.execs[e], w.db))
    && (forall e <- w.execs, f <- w.execs :: Issuer(w.execs[e]) && Issuer(w.execs[f]) ==> e == f)
  }

  lemma {:induction false} EarlierKeepsNotices(w: World, e: ExecId, c: Commit)
    requires NoticesOk(w) && e in w.execs
    ensures NoticesOk(AdvanceExtract(w, e, w.execs[e], c)) && NoticesOk(AdvanceMatch(w, e, w.execs[e], c))
  {
  }

  lemma {:induction false} HandlerKeepsNotices(w: World, e: ExecId, c: Commit)
    requires Inv(w) && NoticesOk(w) && e in w.execs
    ensures NoticesOk(Advance(w, e, w.execs[e], c))
  {
    EarlierKeepsNotices(w, e, c);
  }

  lemma {:induction false} StepKeepsNotices(w: World, st: Step)
    requires Inv(w) && NoticesOk(w)
    ensures NoticesOk(Apply(w, st))
  {
    match st
    case InApp(a, v, now, pick) => InAppShape(w.db, a, v, now, pick);
    case Redeem(h, v, who, now) => LinkShape(w.db, h, v, who, now);
    case Rerun =>
    case Resolve(_, _, _, _) =>
    case ClaimExtract(_, _) =>
    case ClaimMatch(_) =>
    case Crash(_) =>
    case Do(e, c) => if e in w.execs { HandlerKeepsNotices(w, e, c); }
  }

  lemma {:induction false} RunKeepsNotices(w: World, steps: seq<Step>)
    requires Inv(w) && NoticesOk(w)
    ensures NoticesOk(Run(w, steps)) && Inv(Run(w, steps))
    decreases |steps|
  {
    if steps != [] {
      StepKeepsInv(w, steps[0]);
      StepKeepsNotices(w, steps[0]);
      RunKeepsNotices(Apply(w, steps[0]), steps[1..]);
    }
  }

  /** Over every run the notify jobs announce the tokens one by one, in the order they were
      issued; at most the last token is without a job, and while it is, nobody issues another. */
  lemma {:induction false} OnlyTheLastTokenIsUnannounced(steps: seq<Step>)
    ensures var w := Run(START, steps);
            && Announced(w.db)
            && (|w.db.notices| < |w.db.approvals| ==> forall e <- w.execs :: !w.execs[e].Issuing?)
  {
    RunKeepsNotices(START, steps);
  }

  // ---- a lost announcement ----------------------------------------------------

  ghost predicate NoIssuer(w: World) {
    forall e <- w.execs :: !Issuer(w.execs[e])
  }

  lemma {:induction false} StepAnnouncesNothing(w: World, st: Step)
    requires Inv(w) && AtApproval(w.db.status) && NoIssuer(w)
    ensures var u := Apply(w, st);
            u.db.notices == w.db.notices && AtApproval(u.db.status) && NoIssuer(u)
  {
    match st
    case InApp(a, v, now, pick) => InAppShape(w.db, a, v, now, pick);
    case Redeem(h, v, who, now) => LinkShape(w.db, h, v, who, now);
    case Rerun =>
    case Resolve(_, _, _, _) =>
    case ClaimExtract(_, _) =>
    case ClaimMatch(_) =>
    case Crash(_) =>
    case Do(_, _) =>
  }

  lemma {:induction false} NothingIsAnnounced(w: World, steps: seq<Step>)
    requires Inv(w) && AtApproval(w.db.status) && NoIssuer(w)
    ensures Run(w, steps).db.notices == w.db.notices
    decreases |steps|
  {
    if steps != [] {
      StepAnnouncesNothing(w, steps[0]);
      StepKeepsInv(w, steps[0]);
      NothingIsAnnounced(Apply(w, steps[0]), steps[1..]);
    }
  }

  lemma {:induction false} IssuerAnnounces(w: World, e: ExecId)
    requires e in w.execs && w.execs[e].Announcing?
    ensures |Run(w, [Do(e, EnqueueNotify)]).db.notices| == |w.db.notices| + 1
  {
    OneStep(w, Do(e, EnqueueNotify));
  }

  /** A token without its notify job is ever announced if and only if the handler that issued it
      is still in flight: no retry of the match job makes up for a handler that died. */
  lemma {:induction false} AnnouncedExactlyWhileInFlight(before: seq<Step>)
    requires |Run(START, before).db.notices| < |Run(START, before).db.approvals|
    ensures var w := Run(START, before);
            (exists after :: |Run(w, after).db.notices| > |w.db.notices|) <==> !NoIssuer(w)
  {
    var w := Run(START, before);
    RunKeepsNotices(START, before);
    if NoIssuer(w) {
      forall after
        ensures Run(w, after).db.notices == w.db.notices
      {
        NothingIsAnnounced(w, after);
      }
    } else {
      var e :| e in w.execs && Issuer(w.execs[e]);
      IssuerAnnounces(w, e);
    }
  }
}
