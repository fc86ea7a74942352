/** What every interleaving of handlers, re-runs, decisions and link redemptions keeps. */
module WorkflowSafety {
  import opened Wrappers
  import opened InvoiceStatus
  import opened Decision
  import opened Workflow

  // ---- the invariant ----------------------------------------------------------

  /** The audit log is an unbroken, legal path from RECEIVED to the current status. */
  ghost predicate Chain(audit: seq<AuditRow>, now: Status) {
    && (audit == [] ==> now == Status.Received)
    && (audit != [] ==> audit[0].before == Status.Received && audit[|audit| - 1].after == now)
    && (forall i :: 0 <= i < |audit| ==> Allowed(audit[i].before, audit[i].after))
    && (forall i :: 0 < i < |audit| ==> audit[i].before == audit[i - 1].after)
  }

  predicate AtApproval(s: Status) {
    s in {PendingApproval, Approved, Rejected}
  }

  /** Lines are saved by the one execution that entered EXTRACTING, and never again. */
  ghost predicate LinesOnce(t: Tables) {
    && (t.status in {Status.Received, ExtractionFailed} ==> t.lineBatches == 0)
    && (t.status == Extracting ==> t.lineBatches <= 1)
    && (t.status !in {Status.Received, Extracting, ExtractionFailed} ==> t.lineBatches == 1)
  }

  /** Where the invoice ends up follows from the evidence of its last match run. */
  ghost predicate Evidenced(t: Tables) {
    && (t.status == AutoPosted ==> t.matchRuns != [] && SafeToAutoPost(t.matchRuns[|t.matchRuns| - 1]))
    && (AtApproval(t.status) ==> t.matchRuns != [] && Decide(t.matchRuns[|t.matchRuns| - 1]).PendingApprovalBy?)
  }

  ghost predicate Tokens(rows: seq<ApprovalRow>) {
    && (forall i, j :: 0 <= i < j < |rows| ==> rows[i].tokenHash != rows[j].tokenHash)
    && (forall i :: 0 <= i < |rows| ==> (rows[i].consumedAt.Some? <==> rows[i].decision.Some?))
  }

  /** A post job exists exactly for an invoice approved through a link. */
  ghost predicate PostJob(t: Tables) {
    && t.status != Posted
    && (t.postJob <==> t.status == Approved && t.audit != [] && t.audit[|t.audit| - 1].writer == LinkRedemption)
  }

  ghost predicate RowsInv(t: Tables) {
    && Chain(t.audit, t.status)
    && LinesOnce(t)
    && Evidenced(t)
    && Tokens(t.approvals)
    && (t.approvals != [] ==> AtApproval(t.status))
    && PostJob(t)
  }

  /** An execution that will write a status over one it does not read again. */
  predicate Holder(x: Exec) {
    x.BackendAtWork? || x.LinesSaved? || x.Loading? || x.RunSaved? || x.FindingsSaved? || x.Routed?
  }

  ghost predicate ExecOk(x: Exec, t: Tables) {
    && (x.BackendAtWork? ==> t.status == Extracting && t.lineBatches == 0)
    && (x.LinesSaved? ==> t.status == Extracting && t.lineBatches == 1)
    && (x.Loading? ==> t.status == Matching)
    && (x.RunSaved? || x.FindingsSaved? ==> t.status == Matching)
    && (x.RunSaved? || x.FindingsSaved? || x.Routed? ==>
          t.matchRuns != [] && x.run == |t.matchRuns| - 1 && t.matchRuns[x.run].total.Some?)
    && (x.Routed? ==>
          && t.status == Intermediate(t.matchRuns[x.run].result)
          && (Decide(t.matchRuns[x.run]).AutoPost? || Decide(t.matchRuns[x.run]).PendingApprovalBy?))
    && (x.Issuing? || x.Announcing? ==> AtApproval(t.status))
  }

  ghost predicate ExecsInv(w: World) {
    && (forall e <- w.execs :: ExecOk(w.execs[e], w.db))
    && (forall e <- w.execs, f <- w.execs :: Holder(w.execs[e]) && Holder(w.execs[f]) ==> e == f)
  }

  ghost predicate Inv(w: World) {
    RowsInv(w.db) && ExecsInv(w)
  }

  // ---- what the invariant says of status writes -------------------------------

  lemma {:induction false} HeldIsCurrent(x: Exec, t: Tables)
    requires ExecOk(x, t)
    ensures Holder(x) <==> HeldFrom(x, t).Some?
    ensures Holder(x) ==> HeldFrom(x, t).value == t.status && InTransit(t.status)
  {
  }

  /** An unread status write keeps the audit path exactly when the status it names is
      the row's and the move is legal. */
  lemma {:induction false} WriteKeepsChainExactly(t: Tables, writer: Writer, from: Status, to: Status)
    requires Chain(t.audit, t.status)
    ensures var u := WriteStatus(t, writer, from, to);
            Chain(u.audit, u.status) <==> from == t.status && Allowed(from, to)
  {
    var u := WriteStatus(t, writer, from, to);
    var n := |t.audit|;
    assert u.audit[n] == AuditRow(writer, from, to);
    assert forall i :: 0 <= i < n ==> u.audit[i] == t.audit[i];
    if Chain(u.audit, u.status) {
      assert Allowed(u.audit[n].before, u.audit[n].after);
      if n > 0 { assert u.audit[n].before == u.audit[n - 1].after; }
    }
  }

  /** A worker's write, from the row's status to a legal next one. */
  lemma {:induction false} WorkerWrites(t: Tables, to: Status)
    requires RowsInv(t) && Allowed(t.status, to) && t.status !in {PendingApproval, Approved}
    requires t.status == Extracting ==> t.lineBatches == (if to == ExtractionFailed then 0 else 1)
    requires to == AutoPosted ==> t.matchRuns != [] && SafeToAutoPost(t.matchRuns[|t.matchRuns| - 1])
    requires to == PendingApproval ==> t.matchRuns != [] && Decide(t.matchRuns[|t.matchRuns| - 1]).PendingApprovalBy?
    ensures RowsInv(WriteStatus(t, Worker, t.status, to))
  {
    WriteKeepsChainExactly(t, Worker, t.status, to);
  }

  // ---- executions ---------------------------------------------------------------

  predicate SameForExecs(t: Tables, u: Tables) {
    u.status == t.status && u.lineBatches == t.lineBatches && u.matchRuns == t.matchRuns
  }

  lemma {:induction false} RowsChangeUnderExecs(w: World, u: Tables)
    requires ExecsInv(w)
    requires SameForExecs(w.db, u)
          || (!InTransit(w.db.status) && !(AtApproval(w.db.status) && !AtApproval(u.status)))
    ensures ExecsInv(w.(db := u))
  {
    forall e <- w.execs
      ensures ExecOk(w.execs[e], u)
    {
      HeldIsCurrent(w.execs[e], w.db);
    }
  }

  /** `e` moves to `x` while the rows move to `u`: either nothing another execution relies on
      changes, or `e` is the holder, or nobody is. */
  lemma {:induction false} ExecMoves(w: World, e: ExecId, u: Tables, x: Exec)
    requires ExecsInv(w) && ExecOk(x, u) && e in w.execs
    requires Holder(x) ==> Holder(w.execs[e]) || !InTransit(w.db.status)
    requires SameForExecs(w.db, u)
          || ((Holder(w.execs[e]) || !InTransit(w.db.status)) && !AtApproval(w.db.status))
    ensures ExecsInv(At(w, e, u, x))
  {
    var w' := At(w, e, u, x);
    forall f <- w'.execs
      ensures ExecOk(w'.execs[f], u)
    {
      if f != e { OthersWait(w, e, f); }
    }
    forall f <- w'.execs | f != e && Holder(w'.execs[f])
      ensures !Holder(x)
    {
      OthersWait(w, e, f);
    }
  }

  lemma {:induction false} OthersWait(w: World, e: ExecId, f: ExecId)
    requires ExecsInv(w) && e in w.execs && f in w.execs && f != e
    ensures Holder(w.execs[e]) || !InTransit(w.db.status) ==> !Holder(w.execs[f])
  {
    HeldIsCurrent(w.execs[f], w.db);
  }

  lemma {:induction false} ExecEnds(w: World, e: ExecId, u: Tables)
    requires ExecsInv(w) && e in w.execs
    requires SameForExecs(w.db, u) || (Holder(w.execs[e]) && !AtApproval(w.db.status))
    ensures ExecsInv(Ended(w, e).(db := u))
  {
    var w' := Ended(w, e).(db := u);
    forall f <- w'.execs
      ensures ExecOk(w'.execs[f], u)
    {
      OthersWait(w, e, f);
    }
  }

  // ---- each step keeps it -----------------------------------------------------

  lemma {:induction false} ExtractKeepsInv(w: World, e: ExecId, c: Commit)
    requires Inv(w) && e in w.execs
    ensures Inv(AdvanceExtract(w, e, w.execs[e], c))
  {
    var x, t := w.execs[e], w.db;
    var w' := AdvanceExtract(w, e, x, c);
    if c.EnterExtracting? && x.ExtractClaimed? {
      if Allowed(t.status, Extracting) {
        WorkerWrites(t, Extracting);
        ExecMoves(w, e, w'.db, BackendAtWork(x.last));
      } else {
        ExecEnds(w, e, t);
      }
    } else if c.BackendFails? && x.BackendAtWork? {
      if x.last { WorkerWrites(t, ExtractionFailed); }
      ExecEnds(w, e, w'.db);
    } else if c.SaveLines? && x.BackendAtWork? {
      ExecMoves(w, e, w'.db, LinesSaved);
    } else if c.FinishExtract? && x.LinesSaved? {
      WorkerWrites(t, Extracted);
      ExecMoves(w, e, w'.db, ExtractedWritten);
    } else if c.EnqueueMatch? && x.ExtractedWritten? {
      ExecEnds(w, e, w'.db);
    }
  }

  lemma {:induction false} MatchKeepsInv(w: World, e: ExecId, c: Commit)
    requires Inv(w) && e in w.execs
    ensures Inv(AdvanceMatch(w, e, w.execs[e], c))
  {
    var x, t := w.execs[e], w.db;
    var w' := AdvanceMatch(w, e, x, c);
    if c.EnterMatching? && x.MatchClaimed? {
      if Allowed(t.status, Matching) {
        WorkerWrites(t, Matching);
        ExecMoves(w, e, w'.db, Loading);
      } else {
        ExecEnds(w, e, t);
      }
    } else if c.RejectMalformed? && x.Loading? {
      WorkerWrites(t, NeedsVerification);
      ExecEnds(w, e, w'.db);
    } else if c.SaveRun? && x.Loading? {
      if c.ev.total.None? { ExecEnds(w, e, t); } else { ExecMoves(w, e, w'.db, RunSaved(|t.matchRuns|)); }
    } else if c.SaveFindings? && x.RunSaved? {
      ExecMoves(w, e, w'.db, FindingsSaved(x.run, |t.exceptions|));
    }
  }

  lemma {:induction false} OutcomeKeepsInv(w: World, e: ExecId, c: Commit)
    requires Inv(w) && e in w.execs
    ensures Inv(AdvanceOutcome(w, e, w.execs[e], c))
  {
    var x, t := w.execs[e], w.db;
    var w' := AdvanceOutcome(w, e, x, c);
    if c.ApplyFirst? && x.FindingsSaved? {
      var ev := t.matchRuns[x.run];
      RoutesAreLegal(ev);
      if Decide(ev).NeedsCheck? {
        WorkerWrites(t, NeedsVerification);
        ExecEnds(w, e, w'.db);
      } else {
        WorkerWrites(t, Intermediate(ev.result));
        ExecMoves(w, e, w'.db, Routed(x.run, x.firstException));
      }
    } else if c.ApplySecond? && x.Routed? {
      var ev := t.matchRuns[x.run];
      RoutesAreLegal(ev);
      if Decide(ev).AutoPost? {
        WorkerWrites(t, AutoPosted);
        ExecEnds(w, e, w'.db);
      } else {
        WorkerWrites(t, PendingApproval);
        ExecMoves(w, e, w'.db, w'.execs[e]);
      }
    }
  }

  lemma {:induction false} TokensKeepInv(w: World, e: ExecId, c: Commit)
    requires Inv(w) && e in w.execs
    ensures Inv(AdvanceTokens(w, e, w.execs[e], c))
  {
    var x, t := w.execs[e], w.db;
    var w' := AdvanceTokens(w, e, x, c);
    if c.IssueToken? && x.Issuing? {
      if e in w'.execs {
        TokenAdded(t, w'.db.approvals[|t.approvals|]);
        ExecMoves(w, e, w'.db, w'.execs[e]);
      } else {
        ExecEnds(w, e, t);
      }
    } else if c.EnqueueNotify? && x.Announcing? {
      ExecMoves(w, e, w'.db, w'.execs[e]);
    }
  }

  lemma {:induction false} TokenAdded(t: Tables, row: ApprovalRow)
    requires RowsInv(t) && AtApproval(t.status) && row.consumedAt.None? && row.decision.None?
    requires forall i :: 0 <= i < |t.approvals| ==> t.approvals[i].tokenHash != row.tokenHash
    ensures RowsInv(t.(approvals := t.approvals + [row]))
  {
  }

  /** Some rows filled in, the others as they were. */
  ghost predicate RowsFilled(rows: seq<ApprovalRow>, after: seq<ApprovalRow>) {
    && |after| == |rows|
    && (forall i :: 0 <= i < |rows| ==> NoticeOf(after[i]) == NoticeOf(rows[i]))
    && (forall i :: 0 <= i < |rows| ==> after[i] == rows[i] || (after[i].consumedAt.Some? && after[i].decision.Some?))
  }

  /** All a decision can do to the rows: fill in open approval rows, close open exceptions and,
      at most, move PENDING_APPROVAL to its end. */
  ghost predicate DecisionShape(t: Tables, u: Tables, writer: Writer) {
    && SameForExecs(t.(status := u.status), u)
    && RowsFilled(t.approvals, u.approvals) && u.notices == t.notices
    && ((u.status == t.status && u.audit == t.audit && u.postJob == t.postJob)
        || (t.status == PendingApproval && u.status in {Approved, Rejected}
            && u.audit == t.audit + [AuditRow(writer, t.status, u.status)]
            && u.postJob == (t.postJob || (writer == LinkRedemption && u.status == Approved))))
  }

  lemma {:induction false} DecisionKeepsInv(w: World, u: Tables, writer: Writer)
    requires Inv(w) && DecisionShape(w.db, u, writer)
    ensures Inv(w.(db := u))
  {
    WriteKeepsChainExactly(w.db, writer, w.db.status, u.status);
    RowsChangeUnderExecs(w, u);
    assert Tokens(u.approvals);
  }

  lemma {:induction false} InAppShape(t: Tables, actor: Option<Actor>, v: Verdict, now: Time, pick: nat)
    ensures DecisionShape(t, DecideTx(t, actor, v, now, pick).0, InAppDecision)
  {
    if actor.Some? && actor.value.mayDecide {
      var mine := Mine(t.approvals, Contacts(actor.value), pick);
      if mine < |t.approvals| {
        if v == Reject { VetoShape(t, mine, actor.value.id, now); } else { ApproveShape(t, mine, actor.value.id, now); }
      }
    }
  }

  lemma {:induction false} SettledShape(t: Tables, rows: seq<ApprovalRow>, v: Verdict, actor: UserId, now: Time)
    requires RowsFilled(t.approvals, rows) && t.status == PendingApproval
    ensures DecisionShape(t, SettleInApp(t.(approvals := rows), v, actor, now), InAppDecision)
  {
  }

  lemma {:induction false} VetoShape(t: Tables, mine: nat, actor: UserId, now: Time)
    requires mine < |t.approvals|
    ensures DecisionShape(t, VetoTx(t, mine, actor, now).0, InAppDecision)
  {
    assert RowsFilled(t.approvals, Veto(t.approvals, mine, actor, now));
    if t.status == PendingApproval { SettledShape(t, Veto(t.approvals, mine, actor, now), Reject, actor, now); }
  }

  lemma {:induction false} ApproveShape(t: Tables, mine: nat, actor: UserId, now: Time)
    requires mine < |t.approvals|
    ensures DecisionShape(t, ApproveTx(t, mine, actor, now).0, InAppDecision)
  {
    var rows := ApproveOne(t.approvals, mine, actor, now);
    FilledShape(t, t.approvals);
    ApproveFills(t.approvals, mine, actor, now);
    FilledShape(t, rows);
    if t.status == PendingApproval { SettledShape(t, rows, Approve, actor, now); }
  }

  lemma {:induction false} FilledShape(t: Tables, rows: seq<ApprovalRow>)
    requires RowsFilled(t.approvals, rows)
    ensures DecisionShape(t, t.(approvals := rows), InAppDecision)
  {
  }

  lemma {:induction false} ApproveFills(rows: seq<ApprovalRow>, mine: nat, actor: UserId, now: Time)
    requires mine < |rows|
    ensures RowsFilled(rows, ApproveOne(rows, mine, actor, now)) && RowsFilled(rows, rows)
  {
  }

  lemma {:induction false} LinkShape(t: Tables, hash: TokenHash, v: Verdict, who: Option<UserId>, now: Time)
    ensures DecisionShape(t, RedeemTx(t, hash, v, who, now).0, LinkRedemption)
  {
    var k := FindToken(t.approvals, hash);
    if k < |t.approvals| && Allowed(t.status, FinalStatus(v)) { ConsumeShape(t, k, v, who, now); }
  }

  lemma {:induction false} ConsumeShape(t: Tables, k: nat, v: Verdict, who: Option<UserId>, now: Time)
    requires k < |t.approvals| && t.status == PendingApproval
    ensures DecisionShape(t, Consume(t, k, v, who, now), LinkRedemption)
  {
  }

  lemma {:induction false} RerunKeepsInv(w: World)
    requires Inv(w)
    ensures Inv(Apply(w, Rerun))
  {
    var r := RerunTx(w.db);
    if r.Some? {
      WriteKeepsChainExactly(w.db, RerunRequest, w.db.status, Matching);
      RowsChangeUnderExecs(w, r.value);
    }
  }

  lemma {:induction false} StartKeepsInv(w: World, e: ExecId, x: Exec)
    requires Inv(w) && e !in w.execs && (x.ExtractClaimed? || x.MatchClaimed?)
    ensures Inv(At(w, e, w.db, x))
  {
  }

  lemma {:induction false} CrashKeepsInv(w: World, e: ExecId)
    requires Inv(w)
    ensures Inv(Ended(w, e))
  {
  }

  lemma {:induction false} HandlerKeepsInv(w: World, e: ExecId, c: Commit)
    requires Inv(w) && e in w.execs
    ensures Inv(Advance(w, e, w.execs[e], c))
  {
    if c.EnterExtracting? || c.BackendFails? || c.SaveLines? || c.FinishExtract? || c.EnqueueMatch? {
      ExtractKeepsInv(w, e, c);
    } else if c.EnterMatching? || c.RejectMalformed? || c.SaveRun? || c.SaveFindings? {
      MatchKeepsInv(w, e, c);
    } else if c.ApplyFirst? || c.ApplySecond? {
      OutcomeKeepsInv(w, e, c);
    } else {
      TokensKeepInv(w, e, c);
    }
  }

  lemma {:induction false} ResolveKeepsInv(w: World, id: nat, user: UserId, note: string, now: Time)
    requires Inv(w)
    ensures Inv(w.(db := ResolveTx(w.db, id, user, note, now).0))
  {
    RowsChangeUnderExecs(w, ResolveTx(w.db, id, user, note, now).0);
  }

  lemma {:induction false} StepKeepsInv(w: World, st: Step)
    requires Inv(w)
    ensures Inv(Apply(w, st))
  {
    match st
    case Rerun => RerunKeepsInv(w);
    case InApp(a, v, now, pick) =>
      InAppShape(w.db, a, v, now, pick);
      DecisionKeepsInv(w, DecideTx(w.db, a, v, now, pick).0, InAppDecision);
    case Redeem(h, v, who, now) =>
      LinkShape(w.db, h, v, who, now);
      DecisionKeepsInv(w, RedeemTx(w.db, h, v, who, now).0, LinkRedemption);
    case Resolve(id, u, note, now) => ResolveKeepsInv(w, id, u, note, now);
    case ClaimExtract(e, last) => if e !in w.execs { StartKeepsInv(w, e, ExtractClaimed(last)); }
    case ClaimMatch(e) => if e !in w.execs { StartKeepsInv(w, e, MatchClaimed); }
    case Crash(e) => CrashKeepsInv(w, e);
    case Do(e, c) => if e in w.execs { HandlerKeepsInv(w, e, c); }
  }

  lemma {:induction false} RunKeepsInv(w: World, steps: seq<Step>)
    requires Inv(w)
    ensures Inv(Run(w, steps))
    decreases |steps|
  {
    if steps != [] {
      StepKeepsInv(w, steps[0]);
      RunKeepsInv(Apply(w, steps[0]), steps[1..]);
    }
  }

  // ---- what that means for every run ------------------------------------------

  lemma {:induction false} EveryRunIsSafe(steps: seq<Step>)
    ensures Inv(Run(START, steps))
  {
    RunKeepsInv(START, steps);
  }

  /** The status machine is a mutex. In every run, whatever the interleaving: a `from_status`
      held in flight is the row's actual status, at most one execution holds one, and the audit
      rows form an unbroken legal path from RECEIVED to the current status. */
  lemma {:induction false} StatusIsAMutex(steps: seq<Step>, e: ExecId, f: ExecId)
    ensures var w := Run(START, steps);
            && Chain(w.db.audit, w.db.status)
            && (e in w.execs && HeldFrom(w.execs[e], w.db).Some? ==> HeldFrom(w.execs[e], w.db).value == w.db.status)
            && (e in w.execs && f in w.execs && HeldFrom(w.execs[e], w.db).Some? && HeldFrom(w.execs[f], w.db).Some?
                ==> e == f)
  {
    EveryRunIsSafe(steps);
    var w := Run(START, steps);
    if e in w.execs { HeldIsCurrent(w.execs[e], w.db); }
    if f in w.execs { HeldIsCurrent(w.execs[f], w.db); }
  }

  /** At most one extract execution ever saves lines, and one has exactly when the invoice is
      past extraction or about to be. */
  lemma {:induction false} LinesAreSavedOnce(steps: seq<Step>)
    ensures var t := Run(START, steps).db;
            && t.lineBatches <= 1
            && (t.status !in {Status.Received, Extracting, ExtractionFailed} ==> t.lineBatches == 1)
            && (t.status in {Status.Received, ExtractionFailed} ==> t.lineBatches == 0)
  {
    EveryRunIsSafe(steps);
  }

  /** An invoice is auto-posted only on a match that was clean, confidently read and small, and
      a post job exists exactly when a link approved the invoice. */
  lemma {:induction false} PostingIsEarned(steps: seq<Step>)
    ensures var t := Run(START, steps).db;
            && (t.status == AutoPosted ==> t.matchRuns != [] && SafeToAutoPost(t.matchRuns[|t.matchRuns| - 1]))
            && (t.postJob <==> t.status == Approved && t.audit != [] && t.audit[|t.audit| - 1].writer == LinkRedemption)
            && (AtApproval(t.status) ==> t.matchRuns != [] && !SafeToAutoPost(t.matchRuns[|t.matchRuns| - 1]))
  {
    EveryRunIsSafe(steps);
    var t := Run(START, steps).db;
    if t.matchRuns != [] { RoutesAreLegal(t.matchRuns[|t.matchRuns| - 1]); }
  }

  ghost function Rank(s: Status): nat {
    match s
    case Received => 0
    case Extracting => 1
    case Extracted => 2
    case Matching | NeedsVerification => 3
    case MatchedClean | ExceptionsRaised => 4
    case PendingApproval => 5
    case AutoPosted | Approved | Rejected | ExtractionFailed => 6
    case Posted => 7
  }

  lemma {:induction false} ChainClimbs(audit: seq<AuditRow>, now: Status, i: nat, j: nat)
    requires Chain(audit, now) && i <= j < |audit|
    ensures Rank(audit[i].after) <= Rank(audit[j].after)
    ensures i < j && Rank(audit[i].after) == Rank(audit[j].after) ==> audit[i].after in {Matching, NeedsVerification}
    decreases j - i
  {
    if i < j {
      assert audit[i + 1].before == audit[i].after;
      ChainClimbs(audit, now, i + 1, j);
    }
  }

  /** No status but MATCHING and NEEDS_VERIFICATION is ever written twice; in particular an
      invoice enters EXTRACTING once and is approved or rejected once. */
  lemma {:induction false} OnlyVerificationLoops(steps: seq<Step>, i: nat, j: nat)
    requires i < j < |Run(START, steps).db.audit|
    ensures var a := Run(START, steps).db.audit;
            && (a[i].after == a[j].after ==> a[i].after in {Matching, NeedsVerification})
            && !(a[i].after in {Approved, Rejected} && a[j].after in {Approved, Rejected})
  {
    EveryRunIsSafe(steps);
    var w := Run(START, steps);
    ChainClimbs(w.db.audit, w.db.status, i, j);
  }
}
