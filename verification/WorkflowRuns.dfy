/** Whole runs of the workflow: what is never rewritten, when an invoice is stranded, and what
    settling it does to its exceptions. */
module WorkflowRuns {
  import opened Wrappers
  import opened InvoiceStatus
  import opened Decision
  import opened Workflow
  import opened WorkflowSafety

  lemma {:induction false} RunJoins(w: World, first: seq<Step>, second: seq<Step>)
    ensures Run(w, first + second) == Run(Run(w, first), second)
    decreases |first|
  {
    if first == [] {
      assert first + second == second;
    } else {
      assert (first + second)[1..] == first[1..] + second;
      RunJoins(Apply(w, first[0]), first[1..], second);
    }
  }

  // ---- history ----------------------------------------------------------------

  ghost predicate ApprovalKept(r: ApprovalRow, s: ApprovalRow) {
    && s.tokenHash == r.tokenHash && s.recipient == r.recipient
    && s.exceptionId == r.exceptionId && s.expiresAt == r.expiresAt
    && (r.consumedAt.Some? ==> s == r)
  }

  ghost predicate ExceptionKept(r: ExceptionRow, s: ExceptionRow) {
    && s.severity == r.severity
    && (r.state != Open ==> s == r)
  }

  /** Nothing already recorded in `t` reads differently in `u`. */
  ghost predicate Kept(t: Tables, u: Tables) {
    && t.audit <= u.audit && t.matchRuns <= u.matchRuns
    && t.lineBatches <= u.lineBatches && t.rerunJobs <= u.rerunJobs
    && (t.firstMatchJob ==> u.firstMatchJob) && (t.postJob ==> u.postJob)
    && |t.approvals| <= |u.approvals| && t.notices <= u.notices
    && (forall i :: 0 <= i < |t.approvals| ==> ApprovalKept(t.approvals[i], u.approvals[i]))
    && |t.exceptions| <= |u.exceptions|
    && (forall i :: 0 <= i < |t.exceptions| ==> ExceptionKept(t.exceptions[i], u.exceptions[i]))
    && (t.status in {Approved, Rejected, AutoPosted, ExtractionFailed} ==> u.status == t.status)
  }

  lemma {:induction false} VetoKeepsHistory(t: Tables, mine: nat, actor: UserId, now: Time)
    requires mine < |t.approvals| && t.approvals[mine].consumedAt.None?
    ensures Kept(t, VetoTx(t, mine, actor, now).0)
  {
  }

  lemma {:induction false} ApproveKeepsHistory(t: Tables, mine: nat, actor: UserId, now: Time)
    requires mine < |t.approvals| && t.approvals[mine].consumedAt.None?
    ensures Kept(t, ApproveTx(t, mine, actor, now).0)
  {
  }

  lemma {:induction false} InAppKeepsHistory(t: Tables, actor: Option<Actor>, v: Verdict, now: Time, pick: nat)
    ensures Kept(t, DecideTx(t, actor, v, now, pick).0)
  {
    if actor.Some? && actor.value.mayDecide {
      var mine := Mine(t.approvals, Contacts(actor.value), pick);
      if mine < |t.approvals| {
        VetoKeepsHistory(t, mine, actor.value.id, now);
        ApproveKeepsHistory(t, mine, actor.value.id, now);
      }
    }
  }

  lemma {:induction false} RedeemKeepsHistory(t: Tables, hash: TokenHash, v: Verdict, who: Option<UserId>, now: Time)
    ensures Kept(t, RedeemTx(t, hash, v, who, now).0)
  {
    var k := FindToken(t.approvals, hash);
    if RedeemTx(t, hash, v, who, now).1 == Redeemed { ConsumeKeepsHistory(t, k, v, who, now); }
  }

  lemma {:induction false} ConsumeKeepsHistory(t: Tables, k: nat, v: Verdict, who: Option<UserId>, now: Time)
    requires k < |t.approvals| && t.approvals[k].consumedAt.None? && t.status == PendingApproval
    ensures Kept(t, Consume(t, k, v, who, now))
  {
  }

  /** A handler's commit only adds rows; it writes a status only as the holder or on entering,
      and adds an approval row only while it issues tokens. */
  ghost predicate HandlerShape(t: Tables, x: Exec, u: Tables) {
    && t.audit <= u.audit && t.matchRuns <= u.matchRuns
    && t.lineBatches <= u.lineBatches && t.rerunJobs == u.rerunJobs
    && (t.firstMatchJob ==> u.firstMatchJob) && t.postJob == u.postJob
    && t.approvals <= u.approvals && t.notices <= u.notices && t.exceptions <= u.exceptions
    && (u.status != t.status ==>
          u.status !in {Approved, Rejected}
              && (Holder(x) || t.status in {Status.Received, Extracted, NeedsVerification}))
    && (u.approvals != t.approvals ==> x.Issuing? && x.left > 0)
  }

  lemma {:induction false} ExtractShape(w: World, e: ExecId, x: Exec, c: Commit)
    ensures HandlerShape(w.db, x, AdvanceExtract(w, e, x, c).db)
  {
  }

  lemma {:induction false} MatchShape(w: World, e: ExecId, x: Exec, c: Commit)
    ensures HandlerShape(w.db, x, AdvanceMatch(w, e, x, c).db)
  {
  }

  lemma {:induction false} OutcomeShape(w: World, e: ExecId, x: Exec, c: Commit)
    ensures HandlerShape(w.db, x, AdvanceOutcome(w, e, x, c).db)
  {
  }

  lemma {:induction false} TokensShape(w: World, e: ExecId, x: Exec, c: Commit)
    ensures HandlerShape(w.db, x, AdvanceTokens(w, e, x, c).db)
  {
  }

  lemma {:induction false} AdvanceShape(w: World, e: ExecId, x: Exec, c: Commit)
    ensures HandlerShape(w.db, x, Advance(w, e, x, c).db)
  {
    ExtractShape(w, e, x, c);
    MatchShape(w, e, x, c);
    OutcomeShape(w, e, x, c);
    TokensShape(w, e, x, c);
  }

  lemma {:induction false} ShapeIsKept(t: Tables, x: Exec, u: Tables)
    requires HandlerShape(t, x, u) && ExecOk(x, t)
    ensures Kept(t, u)
  {
    HeldIsCurrent(x, t);
  }

  lemma {:induction false} HandlerKeepsHistory(w: World, e: ExecId, c: Commit)
    requires Inv(w) && e in w.execs
    ensures HandlerShape(w.db, w.execs[e], Advance(w, e, w.execs[e], c).db)
    ensures Kept(w.db, Advance(w, e, w.execs[e], c).db)
  {
    AdvanceShape(w, e, w.execs[e], c);
    ShapeIsKept(w.db, w.execs[e], Advance(w, e, w.execs[e], c).db);
  }

  lemma {:induction false} ResolveKeepsHistory(t: Tables, id: nat, user: UserId, note: string, now: Time)
    ensures Kept(t, ResolveTx(t, id, user, note, now).0)
  {
  }

  lemma {:induction false} StepKeepsHistory(w: World, st: Step)
    requires Inv(w)
    ensures Kept(w.db, Apply(w, st).db)
  {
    match st
    case InApp(a, v, now, pick) => InAppKeepsHistory(w.db, a, v, now, pick);
    case Redeem(h, v, who, now) => RedeemKeepsHistory(w.db, h, v, who, now);
    case Rerun => NothingHappens(w.db);
    case Resolve(id, u, note, now) => ResolveKeepsHistory(w.db, id, u, note, now);
    case ClaimExtract(_, _) => NothingHappens(w.db);
    case ClaimMatch(_) => NothingHappens(w.db);
    case Crash(_) => NothingHappens(w.db);
    case Do(e, c) => if e in w.execs { HandlerKeepsHistory(w, e, c); } else { NothingHappens(w.db); }
  }

  lemma {:induction false} NothingHappens(t: Tables)
    ensures Kept(t, t)
  {
  }

  lemma {:induction false} RunKeepsHistory(w: World, steps: seq<Step>)
    requires Inv(w)
    ensures Kept(w.db, Run(w, steps).db)
    decreases |steps|
  {
    if steps != [] {
      StepKeepsHistory(w, steps[0]);
      StepKeepsInv(w, steps[0]);
      RunKeepsHistory(Apply(w, steps[0]), steps[1..]);
    }
  }

  /** A consumed approval, a closed exception, an audit row, a final status: whatever a run has
      recorded reads the same after every continuation of it. */
  lemma {:induction false} HistoryIsNeverRewritten(before: seq<Step>, after: seq<Step>)
    ensures Kept(Run(START, before).db, Run(START, before + after).db)
  {
    EveryRunIsSafe(before);
    RunKeepsHistory(Run(START, before), after);
    RunJoins(START, before, after);
  }

  // ---- stranded invoices ------------------------------------------------------

  ghost predicate SomeoneHolds(w: World) {
    exists e <- w.execs :: HeldFrom(w.execs[e], w.db).Some?
  }

  ghost predicate NoHolder(w: World) {
    forall e <- w.execs :: !Holder(w.execs[e])
  }

  lemma {:induction false} OutsidersCannotMove(w: World, e: ExecId, x: Exec, c: Commit)
    requires InTransit(w.db.status) && !Holder(x) && NoHolder(w)
    ensures Advance(w, e, x, c).db.status == w.db.status && NoHolder(Advance(w, e, x, c))
  {
  }

  lemma {:induction false} StepKeepsStranded(w: World, st: Step)
    requires InTransit(w.db.status) && NoHolder(w)
    ensures Apply(w, st).db.status == w.db.status && NoHolder(Apply(w, st))
  {
    match st
    case InApp(a, v, now, pick) => InAppShape(w.db, a, v, now, pick);
    case Redeem(h, v, who, now) => LinkShape(w.db, h, v, who, now);
    case Rerun =>
    case Resolve(_, _, _, _) =>
    case ClaimExtract(_, _) =>
    case ClaimMatch(_) =>
    case Crash(_) =>
    case Do(e, c) => if e in w.execs { OutsidersCannotMove(w, e, w.execs[e], c); }
  }

  lemma {:induction false} StrandedForever(w: World, steps: seq<Step>)
    requires InTransit(w.db.status) && NoHolder(w)
    ensures Run(w, steps).db.status == w.db.status
    decreases |steps|
  {
    if steps != [] {
      StepKeepsStranded(w, steps[0]);
      StrandedForever(Apply(w, steps[0]), steps[1..]);
    }
  }

  function WayOut(e: ExecId, x: Exec): seq<Step> {
    match x
    case BackendAtWork(_) => [Do(e, SaveLines), Do(e, FinishExtract)]
    case LinesSaved => [Do(e, FinishExtract)]
    case Loading => [Do(e, RejectMalformed)]
    case RunSaved(_) => [Do(e, SaveFindings), Do(e, ApplyFirst)]
    case FindingsSaved(_, _) => [Do(e, ApplyFirst)]
    case Routed(_, _) => [Do(e, ApplySecond)]
    case _ => []
  }

  lemma {:induction false} OneStep(w: World, a: Step)
    ensures Run(w, [a]) == Apply(w, a)
  {
    assert Run(w, [a]) == Run(Apply(w, a), [a][1..]);
  }

  lemma {:induction false} TwoSteps(w: World, a: Step, b: Step)
    ensures Run(w, [a, b]) == Apply(Apply(w, a), b)
  {
    assert [a, b] == [a] + [b];
    RunJoins(w, [a], [b]);
    OneStep(w, a);
    OneStep(Apply(w, a), b);
  }

  lemma {:induction false} HolderLeaves(w: World, e: ExecId)
    requires Inv(w) && e in w.execs && Holder(w.execs[e])
    ensures Run(w, WayOut(e, w.execs[e])).db.status != w.db.status
  {
    match w.execs[e]
    case BackendAtWork(_) => TwoSteps(w, Do(e, SaveLines), Do(e, FinishExtract));
    case LinesSaved => OneStep(w, Do(e, FinishExtract));
    case Loading => OneStep(w, Do(e, RejectMalformed));
    case RunSaved(_) => TwoSteps(w, Do(e, SaveFindings), Do(e, ApplyFirst));
    case FindingsSaved(_, _) => OneStep(w, Do(e, ApplyFirst));
    case Routed(_, _) => OneStep(w, Do(e, ApplySecond)); SecondWriteLeaves(w, e);
  }

  lemma {:induction false} SecondWriteLeaves(w: World, e: ExecId)
    requires Inv(w) && e in w.execs && w.execs[e].Routed?
    ensures Apply(w, Do(e, ApplySecond)).db.status != w.db.status
  {
    RoutesAreLegal(w.db.matchRuns[w.execs[e].run]);
  }

  /** An invoice between two commits of a handler can move on exactly while that handler is
      still in flight: no retry, re-run or decision can take its place. */
  lemma {:induction false} MovesOnExactlyWhileHeld(w: World)
    requires Inv(w) && InTransit(w.db.status)
    ensures (exists steps :: Run(w, steps).db.status != w.db.status) <==> SomeoneHolds(w)
  {
    if SomeoneHolds(w) {
      var e :| e in w.execs && HeldFrom(w.execs[e], w.db).Some?;
      HeldIsCurrent(w.execs[e], w.db);
      HolderLeaves(w, e);
    } else {
      forall steps
        ensures Run(w, steps).db.status == w.db.status
      {
        StrandedForever(w, steps);
      }
    }
  }

  /** rerun_match writes MATCHING itself, and the match job it enqueues cannot enter MATCHING
      from MATCHING: the invoice stays there in every continuation. */
  lemma {:induction false} RerunStrandsTheInvoice(before: seq<Step>, after: seq<Step>)
    requires Run(START, before).db.status == NeedsVerification
    ensures Run(START, before + [Rerun] + after).db.status == Matching
  {
    var w := Run(START, before);
    EveryRunIsSafe(before);
    var w1 := Apply(w, Rerun);
    forall e <- w.execs
      ensures !Holder(w.execs[e])
    {
      HeldIsCurrent(w.execs[e], w.db);
    }
    StrandedForever(w1, after);
    OneStep(w, Rerun);
    RunJoins(START, before, [Rerun]);
    RunJoins(START, before + [Rerun], after);
  }

  /** An extraction that fails before its job's last attempt leaves the invoice in EXTRACTING in
      every continuation: neither a retry nor EXTRACTION_FAILED is reachable again. */
  lemma {:induction false} FailedAttemptStrandsTheInvoice(before: seq<Step>, e: ExecId, after: seq<Step>)
    requires e in Run(START, before).execs && Run(START, before).execs[e] == BackendAtWork(false)
    ensures Run(START, before + [Do(e, BackendFails)] + after).db.status == Extracting
  {
    var w := Run(START, before);
    EveryRunIsSafe(before);
    var w1 := Apply(w, Do(e, BackendFails));
    assert forall f <- w1.execs :: f in w.execs && f != e && w1.execs[f] == w.execs[f];
    assert NoHolder(w1);
    HeldIsCurrent(w.execs[e], w.db);
    StrandedForever(w1, after);
    OneStep(w, Do(e, BackendFails));
    RunJoins(START, before, [Do(e, BackendFails)]);
    RunJoins(START, before + [Do(e, BackendFails)], after);
  }

  // ---- settling an invoice ----------------------------------------------------

  /** A link does not wait: one unexpired open token settles a pending invoice by itself. */
  lemma {:induction false} OneLinkSettles(t: Tables, hash: TokenHash, v: Verdict, who: Option<UserId>, now: Time)
    ensures RedeemTx(t, hash, v, who, now).1 == Redeemed <==>
        && t.status == PendingApproval
        && exists k :: 0 <= k < |t.approvals| && t.approvals[k].tokenHash == hash
             && (forall i :: 0 <= i < k ==> t.approvals[i].tokenHash != hash)
             && t.approvals[k].consumedAt.None? && now < t.approvals[k].expiresAt
    ensures RedeemTx(t, hash, v, who, now).1 == Redeemed ==> RedeemTx(t, hash, v, who, now).0.status == FinalStatus(v)
    ensures RedeemTx(t, hash, v, who, now).1 != Redeemed ==> RedeemTx(t, hash, v, who, now).0 == t
  {
    var k := FindToken(t.approvals, hash);
  }

  /** Settling in-app leaves no exception open; earlier resolutions keep their words. */
  lemma {:induction false} InAppSettlementClosesEveryException(t: Tables, actor: Option<Actor>, v: Verdict, now: Time,
          pick: nat, i: nat)
    requires DecideTx(t, actor, v, now, pick).1.Settled? && i < |t.exceptions|
    ensures var after := DecideTx(t, actor, v, now, pick).0.exceptions;
            && |after| == |t.exceptions|
            && (t.exceptions[i].state != Open ==> after[i] == t.exceptions[i])
            && (t.exceptions[i].state == Open && v == Approve ==> after[i].state.Resolved?)
            && (t.exceptions[i].state == Open && v == Reject ==> after[i].state.Dismissed?)
  {
  }

  /** Settling by a link closes the link's own exception only; every other one stays as it was,
      so an approved invoice may still show open exceptions. A link without one closes all. */
  lemma {:induction false} LinkSettlementClosesItsOwnException(t: Tables, hash: TokenHash, v: Verdict,
          who: Option<UserId>, now: Time, i: nat)
    requires RedeemTx(t, hash, v, who, now).1 == Redeemed && i < |t.exceptions|
    ensures var own := t.approvals[FindToken(t.approvals, hash)].exceptionId;
            var after := RedeemTx(t, hash, v, who, now).0.exceptions;
            && |after| == |t.exceptions|
            && (after[i] != t.exceptions[i] <==> t.exceptions[i].state == Open && (own.None? || own == Some(i)))
            && (after[i] != t.exceptions[i]
                ==> if v == Approve then after[i].state.Resolved? else after[i].state.Dismissed?)
  {
  }
}
