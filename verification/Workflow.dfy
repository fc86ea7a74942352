/** The invoice workflow of one invoice: the rows its writers share and, for each
    committed transaction, the function from the rows before to the rows after.
    A transaction that raises is rolled back and leaves the rows as they were. */
module Workflow {
  import opened Wrappers
  import opened InvoiceStatus
  import opened Decision

  type Time = int
  type UserId = nat
  type TokenHash = nat

  datatype Verdict = Approve | Reject

  /** Which function wrote a status row of the audit log. */
  datatype Writer = Worker | RerunRequest | InAppDecision | LinkRedemption

  datatype AuditRow = AuditRow(writer: Writer, before: Status, after: Status)

  datatype ApprovalRow = ApprovalRow(
    tokenHash: TokenHash, recipient: string, exceptionId: Option<nat>, expiresAt: Time,
    consumedAt: Option<Time>, decision: Option<Verdict>, decidedBy: Option<UserId>)

  datatype ExceptionState =
    | Open
    | Resolved(who: Option<UserId>, at: Time, note: string)
    | Dismissed(who: Option<UserId>, at: Time, note: string)

  datatype ExceptionRow = ExceptionRow(severity: Severity, state: ExceptionState)

  /** A notify job: the token it announces, to whom and about which exception. */
  datatype Notice = Notice(token: TokenHash, recipient: string, exceptionId: Option<nat>)

  /** The rows of one invoice. Approval and exception ids are positions: rows are only added. */
  datatype Tables = Tables(
    status: Status,
    audit: seq<AuditRow>,
    lineBatches: nat,           // committed `_persist_extraction` transactions
    matchRuns: seq<Evidence>,
    exceptions: seq<ExceptionRow>,
    approvals: seq<ApprovalRow>,
    notices: seq<Notice>,       // notify jobs, keyed by approver: the approvers of one query are distinct users
    firstMatchJob: bool,        // the match job with the fixed idempotency key exists
    rerunJobs: nat,             // match jobs enqueued by rerun_match, each with a fresh key
    postJob: bool)              // the post job with the fixed idempotency key exists

  const FRESH := Tables(Received, [], 0, [], [], [], [], false, 0, false)

  /** `_transition`: sets the status the caller names. The row's own status is not read. */
  function WriteStatus(t: Tables, writer: Writer, from: Status, to: Status): Tables {
    t.(status := to, audit := t.audit + [AuditRow(writer, from, to)])
  }

  // ---- in-app decisions -------------------------------------------------------

  /** A row of `users`; `role` is already tested against the approver roles. */
  datatype Actor = Actor(id: UserId, mayDecide: bool, email: string, telegram: Option<string>)

  function Contacts(actor: Actor): set<string> {
    {actor.email} + (if actor.telegram.Some? then {actor.telegram.value} else {}) - {""}
  }

  predicate OpenFor(row: ApprovalRow, contacts: set<string>) {
    row.recipient in contacts && row.consumedAt.None?
  }

  /** Position of the first open row addressed to one of `contacts`, or |rows|. */
  function FirstOpen(rows: seq<ApprovalRow>, contacts: set<string>): (k: nat)
    ensures k <= |rows|
    ensures k < |rows| ==> OpenFor(rows[k], contacts)
    ensures forall i :: 0 <= i < k ==> !OpenFor(rows[i], contacts)
  {
    if rows == [] then 0
    else if OpenFor(rows[0], contacts) then 0
    else 1 + FirstOpen(rows[1..], contacts)
  }

  /** The row decide_invoice takes for its caller: the first open one addressed to them, in the order
      the rows come back. The query names no order, so it may be any such row; `pick` says which. */
  function Mine(rows: seq<ApprovalRow>, contacts: set<string>, pick: nat): (k: nat)
    ensures k <= |rows|
    ensures k < |rows| ==> OpenFor(rows[k], contacts)
    ensures k == |rows| ==> forall i :: 0 <= i < |rows| ==> !OpenFor(rows[i], contacts)
  {
    if pick < |rows| && OpenFor(rows[pick], contacts) then pick else FirstOpen(rows, contacts)
  }

  function ApprovedCount(rows: seq<ApprovalRow>): (n: nat)
    ensures n <= |rows|
  {
    if rows == [] then 0
    else (if rows[|rows| - 1].decision == Some(Approve) then 1 else 0) + ApprovedCount(rows[..|rows| - 1])
  }

  /** Every row still open, other than the vetoing one, is closed without an owner. */
  function Veto(rows: seq<ApprovalRow>, mine: nat, actor: UserId, now: Time): (r: seq<ApprovalRow>)
    requires mine < |rows|
  {
    seq(|rows|, i requires 0 <= i < |rows| =>
      if i == mine then rows[i].(consumedAt := Some(now), decision := Some(Reject), decidedBy := Some(actor))
      else if rows[i].consumedAt.None? then rows[i].(consumedAt := Some(now), decision := Some(Reject))
      else rows[i])
  }

  function ApproveOne(rows: seq<ApprovalRow>, mine: nat, actor: UserId, now: Time): (r: seq<ApprovalRow>)
    requires mine < |rows|
  {
    rows[mine := rows[mine].(consumedAt := Some(now), decision := Some(Approve), decidedBy := Some(actor))]
  }

  function SettledState(v: Verdict, who: Option<UserId>, now: Time, note: string): ExceptionState {
    if v == Approve then Resolved(who, now, note) else Dismissed(who, now, note)
  }

  /** Closes every open exception; a row already resolved or dismissed keeps its resolution. */
  function CloseOpen(rows: seq<ExceptionRow>, closed: ExceptionState): (r: seq<ExceptionRow>)
  {
    seq(|rows|, i requires 0 <= i < |rows| =>
      if rows[i].state == Open then rows[i].(state := closed) else rows[i])
  }

  function FinalStatus(v: Verdict): Status {
    if v == Approve then Approved else Rejected
  }

  datatype DecideReply =
    | NotAuthorizedToDecide
    | NoPendingApprovalForActor
    | InvalidStateTransition
    | Pending(received: nat, required: nat)
    | Settled(verdict: Verdict)

  function InAppNote(v: Verdict): string {
    (if v == Approve then "approved" else "rejected") + " in-app on the match screen"
  }

  /** `_settle_invoice` on rows whose approvals have already been written. */
  function SettleInApp(t: Tables, v: Verdict, actor: UserId, now: Time): Tables {
    WriteStatus(t, InAppDecision, t.status, FinalStatus(v))
      .(exceptions := CloseOpen(t.exceptions, SettledState(v, Some(actor), now, InAppNote(v))))
  }

  /** decide_invoice after the caller's own open row `mine` is found: a veto. */
  function VetoTx(t: Tables, mine: nat, actor: UserId, now: Time): (Tables, DecideReply)
    requires mine < |t.approvals|
  {
    if !Allowed(t.status, Rejected) then (t, InvalidStateTransition)
    else (SettleInApp(t.(approvals := Veto(t.approvals, mine, actor, now)), Reject, actor, now), Settled(Reject))
  }

  function ApprovalsReceived(rows: seq<ApprovalRow>, mine: nat): nat
    requires mine < |rows|
  {
    1 + ApprovedCount(rows[..mine]) + ApprovedCount(rows[mine + 1..])
  }

  /** ... and an approval: it settles only when nobody else is still to approve. */
  function ApproveTx(t: Tables, mine: nat, actor: UserId, now: Time): (Tables, DecideReply)
    requires mine < |t.approvals|
  {
    var u := t.(approvals := ApproveOne(t.approvals, mine, actor, now));
    if ApprovalsReceived(t.approvals, mine) < |t.approvals|
    then (u, Pending(ApprovalsReceived(t.approvals, mine), |t.approvals|))
    else if !Allowed(t.status, Approved) then (t, InvalidStateTransition)
    else (SettleInApp(u, Approve, actor, now), Settled(Approve))
  }

  /** decide_invoice, as one transaction. */
  function DecideTx(t: Tables, actor: Option<Actor>, v: Verdict, now: Time, pick: nat): (Tables, DecideReply) {
    if actor.None? || !actor.value.mayDecide then (t, NotAuthorizedToDecide)
    else
      var mine := Mine(t.approvals, Contacts(actor.value), pick);
      if mine == |t.approvals| then (t, NoPendingApprovalForActor)
      else if v == Reject then VetoTx(t, mine, actor.value.id, now)
      else ApproveTx(t, mine, actor.value.id, now)
  }

  // ---- approval links ---------------------------------------------------------

  function FindToken(rows: seq<ApprovalRow>, hash: TokenHash): (k: nat)
    ensures k <= |rows|
    ensures k < |rows| ==> rows[k].tokenHash == hash
    ensures forall i :: 0 <= i < k ==> rows[i].tokenHash != hash
  {
    if rows == [] then 0 else if rows[0].tokenHash == hash then 0 else 1 + FindToken(rows[1..], hash)
  }

  datatype RedeemReply = TokenNotFound | TokenAlreadyUsed | TokenExpired | IllegalTransition | Redeemed

  function LinkNote(v: Verdict): string {
    (if v == Approve then "approved" else "rejected") + " via approval token redemption"
  }

  /** redeem_approval_token, as one transaction. One token settles the invoice. */
  function RedeemTx(t: Tables, hash: TokenHash, v: Verdict, actor: Option<UserId>, now: Time): (Tables, RedeemReply) {
    var k := FindToken(t.approvals, hash);
    if k == |t.approvals| then (t, TokenNotFound)
    else
      var row := t.approvals[k];
      if row.consumedAt.Some? then (t, TokenAlreadyUsed)
      else if now >= row.expiresAt then (t, TokenExpired)
      else if !Allowed(t.status, FinalStatus(v)) then (t, IllegalTransition)
      else
        (Consume(t, k, v, actor, now), Redeemed)
  }

  /** The writes of a redemption that goes through. */
  function Consume(t: Tables, k: nat, v: Verdict, actor: Option<UserId>, now: Time): Tables
    requires k < |t.approvals|
  {
    var row := t.approvals[k];
    var closed := SettledState(v, actor, now, LinkNote(v));
    WriteStatus(t, LinkRedemption, t.status, FinalStatus(v)).(
      approvals := t.approvals[k := row.(consumedAt := Some(now), decision := Some(v), decidedBy := actor)],
      exceptions :=
        if row.exceptionId.None? then CloseOpen(t.exceptions, closed)
        else CloseOne(t.exceptions, row.exceptionId.value, closed),
      postJob := t.postJob || v == Approve)
  }

  function CloseOne(rows: seq<ExceptionRow>, id: nat, closed: ExceptionState): (r: seq<ExceptionRow>)
  {
    if id < |rows| && rows[id].state == Open then rows[id := rows[id].(state := closed)] else rows
  }

  // ---- the exceptions queue and the verification screen -----------------------

  datatype ResolveReply = ExceptionNotFound | ExceptionAlreadySettled | ExceptionResolved

  function ResolveTx(t: Tables, id: nat, actor: UserId, note: string, now: Time): (Tables, ResolveReply) {
    if id >= |t.exceptions| then (t, ExceptionNotFound)
    else if t.exceptions[id].state != Open then (t, ExceptionAlreadySettled)
    else
      var text := if note == "" then "resolved from the exceptions queue" else note;
      (t.(exceptions := t.exceptions[id := t.exceptions[id].(state := Resolved(Some(actor), now, text))]),
       ExceptionResolved)
  }

  /** rerun_match; None when it raises InvalidStateTransition. */
  function RerunTx(t: Tables): Option<Tables> {
    if !Allowed(t.status, Matching) then None
    else Some(WriteStatus(t, RerunRequest, t.status, Matching).(rerunJobs := t.rerunJobs + 1))
  }

  // ---- executions of the worker's handlers ------------------------------------

  type ExecId = nat

  /** Where an execution of a handler stands, between two of its commits. */
  datatype Exec =
    | ExtractClaimed(last: bool)
    | BackendAtWork(last: bool)         // EXTRACTING committed, backend at work
    | LinesSaved                       // invoice lines committed
    | ExtractedWritten                 // EXTRACTED committed, match job not yet enqueued
    | MatchClaimed
    | Loading                          // MATCHING committed, context being read
    | RunSaved(run: nat)               // match_runs row committed
    | FindingsSaved(run: nat, firstException: nat)
    | Routed(run: nat, firstException: nat)                 // MATCHED_CLEAN or EXCEPTIONS_RAISED committed
    | Issuing(left: nat, exceptionId: Option<nat>)          // PENDING_APPROVAL committed, or the last notify job
    // token committed, its notify job not yet enqueued
    | Announcing(left: nat, exceptionId: Option<nat>, notice: Notice)

  /** The workflow of one invoice: its rows and the handler executions in flight. Any number
      of executions may be in flight at once: a stalled worker's job is reclaimed by another. */
  datatype World = World(db: Tables, execs: map<ExecId, Exec>)

  /** The `from_status` an execution will pass, unread, to its next status write. */
  function HeldFrom(x: Exec, t: Tables): Option<Status> {
    match x
    case BackendAtWork(_) | LinesSaved => Some(Extracting)
    case Loading | RunSaved(_) | FindingsSaved(_, _) => Some(Matching)
    case Routed(run, _) => if run < |t.matchRuns| then Some(Intermediate(t.matchRuns[run].result)) else None
    case _ => None
  }

  /** The next commit of a handler's execution. */
  datatype Commit =
    | EnterExtracting | BackendFails | SaveLines | FinishExtract | EnqueueMatch
    | EnterMatching | RejectMalformed | SaveRun(ev: Evidence) | SaveFindings
    | ApplyFirst | ApplySecond
    | IssueToken(hash: TokenHash, recipient: string, expiresAt: Time) | EnqueueNotify

  datatype Step =
    | ClaimExtract(e: ExecId, last: bool)
    | ClaimMatch(e: ExecId)
    | Do(e: ExecId, commit: Commit)
    | Crash(e: ExecId)                 // the process dies, or the handler raises between commits
    | Rerun
    | InApp(actor: Option<Actor>, verdict: Verdict, now: Time, pick: nat)
    | Redeem(hash: TokenHash, verdict: Verdict, who: Option<UserId>, now: Time)
    | Resolve(id: nat, user: UserId, note: string, now: Time)

  function Ended(w: World, e: ExecId): World {
    w.(execs := w.execs - {e})
  }

  function At(w: World, e: ExecId, db: Tables, x: Exec): World {
    World(db, w.execs[e := x])
  }

  /** First finding of block severity, as an exception id. */
  function FirstBlock(findings: seq<Severity>, base: nat): Option<nat> {
    if findings == [] then None
    else if findings[0] == Block then Some(base)
    else FirstBlock(findings[1..], base + 1)
  }

  function NewExceptions(findings: seq<Severity>): (r: seq<ExceptionRow>)
  {
    seq(|findings|, i requires 0 <= i < |findings| => ExceptionRow(findings[i], Open))
  }

  /** One committed transaction, or one handler execution starting or ending. A step whose
      execution is not at the matching point, or which raises, changes no row. */
  function Apply(w: World, st: Step): World {
    match st
    case Rerun => (var r := RerunTx(w.db); if r.Some? then w.(db := r.value) else w)
    case InApp(a, v, now, pick) => w.(db := DecideTx(w.db, a, v, now, pick).0)
    case Redeem(h, v, who, now) => w.(db := RedeemTx(w.db, h, v, who, now).0)
    case Resolve(id, u, note, now) => w.(db := ResolveTx(w.db, id, u, note, now).0)
    case ClaimExtract(e, last) => if e in w.execs then w else At(w, e, w.db, ExtractClaimed(last))
    case ClaimMatch(e) => if e in w.execs then w else At(w, e, w.db, MatchClaimed)
    case Crash(e) => Ended(w, e)
    case Do(e, c) => if e in w.execs then Advance(w, e, w.execs[e], c) else w
  }

  /** The next commit of the execution `e`, standing at `x`. */
  function Advance(w: World, e: ExecId, x: Exec, c: Commit): World {
    if c.EnterExtracting? || c.BackendFails? || c.SaveLines? || c.FinishExtract? || c.EnqueueMatch?
    then AdvanceExtract(w, e, x, c)
    else if c.EnterMatching? || c.RejectMalformed? || c.SaveRun? || c.SaveFindings?
    then AdvanceMatch(w, e, x, c)
    else if c.ApplyFirst? || c.ApplySecond? then AdvanceOutcome(w, e, x, c)
    else AdvanceTokens(w, e, x, c)
  }

  /** handle_extract, commit by commit. */
  function AdvanceExtract(w: World, e: ExecId, x: Exec, c: Commit): World {
    var t := w.db;
    if c.EnterExtracting? && x.ExtractClaimed? then
      if Allowed(t.status, Extracting)
      then At(w, e, WriteStatus(t, Worker, t.status, Extracting), BackendAtWork(x.last))
      else Ended(w, e)
    else if c.BackendFails? && x.BackendAtWork? then
      if x.last then Ended(w, e).(db := WriteStatus(t, Worker, Extracting, ExtractionFailed))
      else Ended(w, e)
    else if c.SaveLines? && x.BackendAtWork? then
      At(w, e, t.(lineBatches := t.lineBatches + 1), LinesSaved)
    else if c.FinishExtract? && x.LinesSaved? then
      At(w, e, WriteStatus(t, Worker, Extracting, Extracted), ExtractedWritten)
    else if c.EnqueueMatch? && x.ExtractedWritten? then
      Ended(w, e).(db := t.(firstMatchJob := true))
    else w
  }

  /** handle_match up to the persisted findings. */
  function AdvanceMatch(w: World, e: ExecId, x: Exec, c: Commit): World {
    var t := w.db;
    if c.EnterMatching? && x.MatchClaimed? then
      if Allowed(t.status, Matching)
      then At(w, e, WriteStatus(t, Worker, t.status, Matching), Loading)
      else Ended(w, e)
    else if c.RejectMalformed? && x.Loading? then
      Ended(w, e).(db := WriteStatus(t, Worker, Matching, NeedsVerification))
    else if c.SaveRun? && x.Loading? then
      if c.ev.total.None? then Ended(w, e)      // run_three_way_match refuses an invoice without a total
      else At(w, e, t.(matchRuns := t.matchRuns + [c.ev]), RunSaved(|t.matchRuns|))
    else if c.SaveFindings? && x.RunSaved? && x.run < |t.matchRuns| then
      At(w, e, t.(exceptions := t.exceptions + NewExceptions(t.matchRuns[x.run].findings)),
         FindingsSaved(x.run, |t.exceptions|))
    else w
  }

  /** `_apply_decision`. */
  function AdvanceOutcome(w: World, e: ExecId, x: Exec, c: Commit): World {
    var t := w.db;
    if c.ApplyFirst? && x.FindingsSaved? && x.run < |t.matchRuns| then
      var ev := t.matchRuns[x.run];
      var decision := Decide(ev);
      if decision.MatchingError? then Ended(w, e)
      else if decision.NeedsCheck? then Ended(w, e).(db := WriteStatus(t, Worker, Matching, NeedsVerification))
      else At(w, e, WriteStatus(t, Worker, Matching, Intermediate(ev.result)), Routed(x.run, x.firstException))
    else if c.ApplySecond? && x.Routed? && x.run < |t.matchRuns| then
      var ev := t.matchRuns[x.run];
      var decision := Decide(ev);
      if decision.AutoPost? then
        if Allowed(Intermediate(ev.result), AutoPosted)
        then Ended(w, e).(db := WriteStatus(t, Worker, Intermediate(ev.result), AutoPosted))
        else Ended(w, e)
      else if decision.PendingApprovalBy? then
        At(w, e, WriteStatus(t, Worker, Intermediate(ev.result), PendingApproval),
           Issuing(decision.requiredApprovers, FirstBlock(ev.findings, x.firstException)))
      else w
    else w
  }

  /** The loop over the approvers: a token, then its notify job. */
  function AdvanceTokens(w: World, e: ExecId, x: Exec, c: Commit): World {
    var t := w.db;
    if c.IssueToken? && x.Issuing? then
      if x.left == 0 || FindToken(t.approvals, c.hash) < |t.approvals| then Ended(w, e)
      else
        At(w, e, t.(approvals := t.approvals + [NewApproval(c.hash, c.recipient, x.exceptionId, c.expiresAt)]),
           Announcing(x.left - 1, x.exceptionId,
               NoticeOf(NewApproval(c.hash, c.recipient, x.exceptionId, c.expiresAt))))
    else if c.EnqueueNotify? && x.Announcing? then
      At(w, e, t.(notices := t.notices + [x.notice]), Issuing(x.left, x.exceptionId))
    else w
  }

  function NoticeOf(row: ApprovalRow): Notice {
    Notice(row.tokenHash, row.recipient, row.exceptionId)
  }

  function NewApproval(hash: TokenHash, recipient: string, exceptionId: Option<nat>, expiresAt: Time): ApprovalRow {
    ApprovalRow(hash, recipient, exceptionId, expiresAt, None, None, None)
  }

  function Run(w: World, steps: seq<Step>): World
    decreases |steps|
  {
    if steps == [] then w else Run(Apply(w, steps[0]), steps[1..])
  }

  const START := World(FRESH, map[])
}
