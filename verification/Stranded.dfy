/** Invoices no commit can move again, beyond those between two commits of a handler: pending with
    nobody left to answer, or extracted with nobody left to enqueue their match job. */
module Stranded {
  import opened Wrappers
  import opened InvoiceStatus
  import opened Workflow
  import opened WorkflowSafety
  import opened WorkflowRuns
  import opened ApprovalQuorum

  lemma {:induction false} Above(s: set<nat>) returns (n: nat)
    ensures forall x <- s :: x < n
    decreases |s|
  {
    n := 0;
    if s != {} {
      var x :| x in s;
      var m := Above(s - {x});
      n := if x < m then m else x + 1;
      assert forall y <- s :: y == x || y in s - {x};
    }
  }

  // ---- pending, and nobody to answer ------------------------------------------

  lemma {:induction false} OpenRowSettles(w: World, i: nat)
    requires Inv(w) && w.db.status == PendingApproval && i < |w.db.approvals| && w.db.approvals[i].consumedAt.None?
    ensures exists steps :: Run(w, steps).db.status != PendingApproval
  {
    var row := w.db.approvals[i];
    assert FindToken(w.db.approvals, row.tokenHash) == i;
    var st := Redeem(row.tokenHash, Approve, None, row.expiresAt - 1);
    OneStep(w, st);
    assert Run(w, [st]).db.status == Approved;
  }

  lemma {:induction false} IssuerSettles(w: World, e: ExecId)
    requires Inv(w) && w.db.status == PendingApproval && e in w.execs && w.execs[e].Issuing? && w.execs[e].left > 0
    ensures exists steps :: Run(w, steps).db.status != PendingApproval
  {
    var rows := w.db.approvals;
    var hashes := set i | 0 <= i < |rows| :: rows[i].tokenHash;
    var hash := Above(hashes);
    assert forall i :: 0 <= i < |rows| ==> rows[i].tokenHash in hashes;
    assert FindToken(rows, hash) == |rows|;
    var st := Do(e, IssueToken(hash, "", 1));
    var u := Apply(w, st);
    assert u.db.approvals[|rows|].consumedAt.None?;
    StepKeepsInv(w, st);
    OpenRowSettles(u, |rows|);
    var steps :| Run(u, steps).db.status != PendingApproval;
    OneStep(w, st);
    RunJoins(w, [st], steps);
  }

  lemma {:induction false} AnnouncerSettles(w: World, e: ExecId)
    requires Inv(w) && w.db.status == PendingApproval && e in w.execs && w.execs[e].Announcing? && w.execs[e].left > 0
    ensures exists steps :: Run(w, steps).db.status != PendingApproval
  {
    var st := Do(e, EnqueueNotify);
    StepKeepsInv(w, st);
    IssuerSettles(Apply(w, st), e);
    var steps :| Run(Apply(w, st), steps).db.status != PendingApproval;
    OneStep(w, st);
    RunJoins(w, [st], steps);
  }

  lemma {:induction false} StepKeepsUnanswered(w: World, st: Step)
    requires Inv(w) && w.db.status == PendingApproval && AllIssued(w) && !SomeOpen(w.db.approvals)
    ensures var u := Apply(w, st); u.db.status == PendingApproval && AllIssued(u) && !SomeOpen(u.db.approvals)
  {
    match st
    case InApp(a, v, now, pick) =>
    case Redeem(h, v, who, now) =>
    case Rerun =>
    case Resolve(_, _, _, _) =>
    case ClaimExtract(_, _) =>
    case ClaimMatch(_) =>
    case Crash(_) =>
    case Do(_, _) => NoMoreTokens(w, st);
  }

  lemma {:induction false} UnansweredForever(w: World, steps: seq<Step>)
    requires Inv(w) && w.db.status == PendingApproval && AllIssued(w) && !SomeOpen(w.db.approvals)
    ensures Run(w, steps).db.status == PendingApproval
    decreases |steps|
  {
    if steps != [] {
      StepKeepsUnanswered(w, steps[0]);
      StepKeepsInv(w, steps[0]);
      UnansweredForever(Apply(w, steps[0]), steps[1..]);
    }
  }

  /** An invoice pending approval can ever be settled if and only if one of its rows is open or a
      handler still has a token to issue for it. */
  lemma {:induction false} SettledExactlyWhileSomeoneIsAsked(w: World)
    requires Inv(w) && w.db.status == PendingApproval
    ensures (exists steps :: Run(w, steps).db.status != PendingApproval)
            <==> SomeOpen(w.db.approvals) || exists e <- w.execs :: TokensLeft(w.execs[e]) > 0
  {
    if SomeOpen(w.db.approvals) {
      var i :| 0 <= i < |w.db.approvals| && w.db.approvals[i].consumedAt.None?;
      OpenRowSettles(w, i);
    } else if e :| e in w.execs && TokensLeft(w.execs[e]) > 0 {
      if w.execs[e].Issuing? { IssuerSettles(w, e); } else { AnnouncerSettles(w, e); }
    } else {
      forall steps
        ensures Run(w, steps).db.status == PendingApproval
      {
        UnansweredForever(w, steps);
      }
    }
  }

  // ---- extracted, and no match job --------------------------------------------

  /** An extract handler between its entry and its last commit. */
  predicate Extractor(x: Exec) {
    x.BackendAtWork? || x.LinesSaved? || x.ExtractedWritten?
  }

  lemma {:induction false} ThenEnqueues(w: World, st: Step)
    requires exists steps :: Run(Apply(w, st), steps).db.firstMatchJob
    ensures exists steps :: Run(w, steps).db.firstMatchJob
  {
    var steps :| Run(Apply(w, st), steps).db.firstMatchJob;
    OneStep(w, st);
    RunJoins(w, [st], steps);
  }

  lemma {:induction false} ExtractorEnqueues(w: World, e: ExecId)
    requires e in w.execs && Extractor(w.execs[e])
    ensures exists steps :: Run(w, steps).db.firstMatchJob
    decreases match w.execs[e] case BackendAtWork(_) => 2 case LinesSaved => 1 case _ => 0
  {
    match w.execs[e]
    case BackendAtWork(_) =>
      ExtractorEnqueues(Apply(w, Do(e, SaveLines)), e);
      ThenEnqueues(w, Do(e, SaveLines));
    case LinesSaved =>
      ExtractorEnqueues(Apply(w, Do(e, FinishExtract)), e);
      ThenEnqueues(w, Do(e, FinishExtract));
    case ExtractedWritten =>
      OneStep(w, Do(e, EnqueueMatch));
      assert Run(w, [Do(e, EnqueueMatch)]).db.firstMatchJob;
  }

  lemma {:induction false} ReceivedIsExtracted(w: World)
    requires w.db.status == Status.Received
    ensures exists steps :: Run(w, steps).db.firstMatchJob
  {
    var e := Above(w.execs.Keys);
    var w1 := Apply(w, ClaimExtract(e, true));
    ExtractorEnqueues(Apply(w1, Do(e, EnterExtracting)), e);
    ThenEnqueues(w1, Do(e, EnterExtracting));
    ThenEnqueues(w, ClaimExtract(e, true));
  }

  ghost predicate NoMatchJobAhead(w: World) {
    && !w.db.firstMatchJob && w.db.status != Status.Received
    && forall e <- w.execs :: !Extractor(w.execs[e])
  }

  lemma {:induction false} ExtractEnqueuesNothing(w: World, e: ExecId, c: Commit)
    requires NoMatchJobAhead(w) && e in w.execs
    ensures NoMatchJobAhead(AdvanceExtract(w, e, w.execs[e], c))
  {
    assert !Extractor(w.execs[e]);
  }

  lemma {:induction false} MatchEnqueuesNothing(w: World, e: ExecId, c: Commit)
    requires NoMatchJobAhead(w) && e in w.execs
    ensures NoMatchJobAhead(AdvanceMatch(w, e, w.execs[e], c))
  {
  }

  lemma {:induction false} OutcomeEnqueuesNothing(w: World, e: ExecId, c: Commit)
    requires NoMatchJobAhead(w) && e in w.execs
    ensures NoMatchJobAhead(AdvanceOutcome(w, e, w.execs[e], c)) && NoMatchJobAhead(AdvanceTokens(w, e, w.execs[e], c))
  {
  }

  lemma {:induction false} HandlerEnqueuesNothing(w: World, e: ExecId, c: Commit)
    requires NoMatchJobAhead(w) && e in w.execs
    ensures NoMatchJobAhead(Advance(w, e, w.execs[e], c))
  {
    ExtractEnqueuesNothing(w, e, c);
    MatchEnqueuesNothing(w, e, c);
    OutcomeEnqueuesNothing(w, e, c);
  }

  lemma {:induction false} InAppEnqueuesNothing(w: World, a: Option<Actor>, v: Verdict, now: Time, pick: nat)
    requires NoMatchJobAhead(w)
    ensures NoMatchJobAhead(w.(db := DecideTx(w.db, a, v, now, pick).0))
  {
  }

  lemma {:induction false} StepEnqueuesNothing(w: World, st: Step)
    requires NoMatchJobAhead(w)
    ensures NoMatchJobAhead(Apply(w, st))
  {
    match st
    case InApp(a, v, now, pick) => InAppEnqueuesNothing(w, a, v, now, pick);
    case Redeem(h, v, who, now) => LinkShape(w.db, h, v, who, now);
    case Rerun =>
    case Resolve(_, _, _, _) =>
    case ClaimExtract(_, _) =>
    case ClaimMatch(_) =>
    case Crash(_) =>
    case Do(e, c) => if e in w.execs { HandlerEnqueuesNothing(w, e, c); }
  }

  lemma {:induction false} NothingIsEnqueued(w: World, steps: seq<Step>)
    requires NoMatchJobAhead(w)
    ensures !Run(w, steps).db.firstMatchJob
    decreases |steps|
  {
    if steps != [] {
      StepEnqueuesNothing(w, steps[0]);
      NothingIsEnqueued(Apply(w, steps[0]), steps[1..]);
    }
  }

  /** An invoice without its first match job can ever get one if and only if it has not been taken
      up, or the extract handler that took it up is still in flight: one that dies between EXTRACTED
      and its enqueue leaves the invoice without a match job for good. */
  lemma {:induction false} MatchJobExactlyWhileExtracting(w: World)
    requires !w.db.firstMatchJob
    ensures (exists steps :: Run(w, steps).db.firstMatchJob)
            <==> w.db.status == Status.Received || exists e <- w.execs :: Extractor(w.execs[e])
  {
    if w.db.status == Status.Received {
      ReceivedIsExtracted(w);
    } else if e :| e in w.execs && Extractor(w.execs[e]) {
      ExtractorEnqueues(w, e);
    } else {
      forall steps
        ensures !Run(w, steps).db.firstMatchJob
      {
        NothingIsEnqueued(w, steps);
      }
    }
  }
}
