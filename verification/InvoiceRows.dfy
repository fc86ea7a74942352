/** The rows of one invoice as the writers update them: the transactions of the API and, as
    sequences of committed transactions, the worker's extract and match handlers. */
module InvoiceRows {
  import opened Wrappers
  import opened InvoiceStatus
  import opened Decision
  import opened Workflow
  import opened WorkflowRuns

  datatype Token = Token(hash: TokenHash, recipient: string, expiresAt: Time)

  /** What handle_match meets between entering MATCHING and having a match result. */
  datatype MatchLoad = ContextMissing | Malformed | Matched(ev: Evidence)

  /** The commits of a handle_extract whose backend succeeds or fails. */
  function ExtractScript(ok: bool): seq<Step> {
    if ok then [Do(0, EnterExtracting), Do(0, SaveLines), Do(0, FinishExtract), Do(0, EnqueueMatch)]
    else [Do(0, EnterExtracting), Do(0, BackendFails)]
  }

  /** The commits of the loop over the approvers: a token and its notify job each. */
  function IssueScript(tokens: seq<Token>): seq<Step> {
    if tokens == [] then []
    else
      [Do(0, IssueToken(tokens[0].hash, tokens[0].recipient, tokens[0].expiresAt)), Do(0, EnqueueNotify)]
      + IssueScript(tokens[1..])
  }

  /** The commits of a handle_match, up to the first token. */
  function MatchScript(load: MatchLoad): seq<Step> {
    match load
    case ContextMissing => [Do(0, EnterMatching)]
    case Malformed => [Do(0, EnterMatching), Do(0, RejectMalformed)]
    case Matched(ev) => [Do(0, EnterMatching), Do(0, SaveRun(ev)), Do(0, SaveFindings), Do(0, ApplyFirst),
        Do(0, ApplySecond)]
  }

  lemma {:induction false} RunOf4(w: World, a: Step, b: Step, c: Step, d: Step)
    ensures Run(w, [a, b, c, d]) == Apply(Apply(Apply(Apply(w, a), b), c), d)
  {
    assert [a, b, c, d] == [a, b] + [c, d];
    RunJoins(w, [a, b], [c, d]);
    TwoSteps(w, a, b);
    TwoSteps(Apply(Apply(w, a), b), c, d);
  }

  lemma {:induction false} RunOf5(w: World, a: Step, b: Step, c: Step, d: Step, e: Step)
    ensures Run(w, [a, b, c, d, e]) == Apply(Apply(Apply(Apply(Apply(w, a), b), c), d), e)
  {
    assert [a, b, c, d, e] == [a, b, c, d] + [e];
    RunJoins(w, [a, b, c, d], [e]);
    RunOf4(w, a, b, c, d);
    OneStep(Apply(Apply(Apply(Apply(w, a), b), c), d), e);
  }

  /** Every row, at least once: what a query without an ORDER BY promises. */
  ghost predicate Lists(order: seq<nat>, n: nat) {
    && (forall k :: 0 <= k < |order| ==> order[k] < n)
    && (forall i :: 0 <= i < n ==> i in order)
  }

  /** The first open row for one of `contacts` in that order, or the number of rows. */
  function FirstIn(rows: seq<ApprovalRow>, order: seq<nat>, contacts: set<string>): nat {
    if order == [] then |rows|
    else if order[0] < |rows| && OpenFor(rows[order[0]], contacts) then order[0]
    else FirstIn(rows, order[1..], contacts)
  }

  class InvoiceRows {
    var status: Status
    var audit: seq<AuditRow>
    var lineBatches: nat
    var matchRuns: seq<Evidence>
    var exceptions: seq<ExceptionRow>
    var approvals: seq<ApprovalRow>
    var notices: seq<Notice>
    var firstMatchJob: bool
    var rerunJobs: nat
    var postJob: bool

    ghost function View(): Tables
      reads this
    {
      Tables(status, audit, lineBatches, matchRuns, exceptions, approvals, notices, firstMatchJob, rerunJobs, postJob)
    }

    constructor ()
      ensures View() == FRESH
    {
      status, audit, lineBatches, matchRuns := Status.Received, [], 0, [];
      exceptions, approvals, notices, firstMatchJob, rerunJobs, postJob := [], [], [], false, 0, false;
    }

    /** `_transition`; false when validate_transition raises. */
    method Transition(writer: Writer, from: Status, to: Status) returns (ok: bool)
      modifies this`status, this`audit
      ensures ok == Allowed(from, to)
      ensures View() == if ok then WriteStatus(old(View()), writer, from, to) else old(View())
    {
      ok := Allowed(from, to);
      if ok {
        status := to;
        audit := audit + [AuditRow(writer, from, to)];
      }
    }

    /** UPDATE match_exceptions ... WHERE invoice_id = ... AND status = 'open'. */
    method CloseOpenExceptions(closed: ExceptionState)
      modifies this`exceptions
      ensures exceptions == CloseOpen(old(exceptions), closed)
    {
      var i := 0;
      while i < |exceptions|
        invariant 0 <= i <= |exceptions| == |old(exceptions)|
        invariant forall k :: 0 <= k < i ==> exceptions[k] == CloseOpen(old(exceptions), closed)[k]
        invariant forall k :: i <= k < |exceptions| ==> exceptions[k] == old(exceptions)[k]
      {
        if exceptions[i].state == Open {
          exceptions := exceptions[i := exceptions[i].(state := closed)];
        }
        i := i + 1;
      }
    }

    /** The generator over the rows in the order the query returned them. */
    method FirstOpenRow(contacts: set<string>, order: seq<nat>) returns (k: nat)
      requires Lists(order, |approvals|)
      ensures k == Mine(approvals, contacts, FirstIn(approvals, order, contacts))
    {
      var i := 0;
      while i < |order| && !OpenFor(approvals[order[i]], contacts)
        invariant i <= |order|
        invariant forall j :: 0 <= j < i ==> !OpenFor(approvals[order[j]], contacts)
        invariant FirstIn(approvals, order, contacts) == FirstIn(approvals, order[i..], contacts)
      {
        assert order[i..][1..] == order[i + 1..];
        i := i + 1;
      }
      if i < |order| {
        assert order[i..][0] == order[i];
        return order[i];
      }
      k := |approvals|;
      forall r | 0 <= r < |approvals|
        ensures !OpenFor(approvals[r], contacts)
      {
        assert r in order;
        var j :| 0 <= j < |order| && order[j] == r;
      }
    }

    /** The veto of decide_invoice: the caller's own row, then every other open one. */
    method CloseAllRequests(mine: nat, actor: UserId, now: Time)
      requires mine < |approvals|
      modifies this`approvals
      ensures approvals == Veto(old(approvals), mine, actor, now)
    {
      var rows := approvals;
      approvals := approvals[mine := approvals[mine].(
        consumedAt := Some(now), decision := Some(Reject), decidedBy := Some(actor))];
      var i := 0;
      while i < |rows|
        invariant 0 <= i <= |rows| == |approvals|
        invariant forall k ::
                    0 <= k < |rows| && (k < i || k == mine) ==> approvals[k] == Veto(rows, mine, actor, now)[k]
        invariant forall k :: i <= k < |rows| && k != mine ==> approvals[k] == rows[k]
      {
        if i != mine && rows[i].consumedAt.None? {
          approvals := approvals[i := approvals[i].(consumedAt := Some(now), decision := Some(Reject))];
        }
        i := i + 1;
      }
    }

    /** 1 + the approvals among the rows other than `mine`. */
    method CountApprovals(mine: nat) returns (received: nat)
      requires mine < |approvals|
      ensures received == ApprovalsReceived(approvals, mine)
    {
      var rows := approvals;
      received := 1;
      var i := 0;
      while i < |rows|
        invariant 0 <= i <= |rows|
        invariant received == 1 + if i <= mine then ApprovedCount(rows[..i])
                                  else ApprovedCount(rows[..mine]) + ApprovedCount(rows[mine + 1..i])
      {
        if i != mine {
          var from := if i < mine then 0 else mine + 1;
          assert rows[from..i + 1][..i - from] == rows[from..i];
          if rows[i].decision == Some(Approve) { received := received + 1; }
        }
        i := i + 1;
      }
      assert rows[mine + 1..i] == rows[mine + 1..];
    }

    method SettleInvoice(newStatus: Status, v: Verdict, actor: UserId, now: Time)
      requires newStatus == FinalStatus(v)
      modifies this`status, this`audit, this`exceptions
      ensures View() == SettleInApp(old(View()), v, actor, now)
    {
      var current := status;
      status := newStatus;
      CloseOpenExceptions(SettledState(v, Some(actor), now, InAppNote(v)));
      audit := audit + [AuditRow(InAppDecision, current, newStatus)];
    }

    /** `order` is the order in which the query returned the approval rows. */
    method DecideInvoice(actor: Option<Actor>, v: Verdict, now: Time, order: seq<nat>) returns (reply: DecideReply)
      requires Lists(order, |approvals|)
      modifies this
      ensures actor.None? ==> View() == old(View()) && reply == NotAuthorizedToDecide
      ensures actor.Some? ==>
          (View(), reply) == DecideTx(old(View()), actor, v, now, FirstIn(old(approvals), order, Contacts(actor.value)))
    {
      if actor.None? || !actor.value.mayDecide { return NotAuthorizedToDecide; }
      var mine := FirstOpenRow(Contacts(actor.value), order);
      if mine == |approvals| { return NoPendingApprovalForActor; }
      if v == Reject {
        if !Allowed(status, Rejected) { return InvalidStateTransition; }   // raised: the transaction is rolled back
        CloseAllRequests(mine, actor.value.id, now);
        SettleInvoice(Rejected, v, actor.value.id, now);
        return Settled(Reject);
      }
      var required := |approvals|;
      var received := CountApprovals(mine);
      if received >= required && !Allowed(status, Approved) { return InvalidStateTransition; }
      approvals := approvals[mine := approvals[mine].(
        consumedAt := Some(now), decision := Some(Approve), decidedBy := Some(actor.value.id))];
      if received < required { return Pending(received, required); }
      SettleInvoice(Approved, v, actor.value.id, now);
      reply := Settled(Approve);
    }

    method LookUpToken(hash: TokenHash) returns (k: nat)
      ensures k == FindToken(approvals, hash)
    {
      k := 0;
      while k < |approvals| && approvals[k].tokenHash != hash
        invariant k <= |approvals|
        invariant FindToken(approvals, hash) == k + FindToken(approvals[k..], hash)
      {
        assert approvals[k..][1..] == approvals[k + 1..];
        k := k + 1;
      }
    }

    method RedeemApprovalToken(hash: TokenHash, v: Verdict, actor: Option<UserId>, now: Time)
      returns (reply: RedeemReply)
      modifies this
      ensures (View(), reply) == RedeemTx(old(View()), hash, v, actor, now)
    {
      var k := LookUpToken(hash);
      if k == |approvals| { return TokenNotFound; }
      var row := approvals[k];
      if row.consumedAt.Some? { return TokenAlreadyUsed; }
      if now >= row.expiresAt { return TokenExpired; }
      var newStatus := FinalStatus(v);
      if !Allowed(status, newStatus) { return IllegalTransition; }         // raised: the consumed row is rolled back
      approvals := approvals[k := row.(consumedAt := Some(now), decision := Some(v), decidedBy := actor)];
      var current := status;
      status := newStatus;
      var closed := SettledState(v, actor, now, LinkNote(v));
      if row.exceptionId.Some? {
        var id := row.exceptionId.value;
        if id < |exceptions| && exceptions[id].state == Open {
          exceptions := exceptions[id := exceptions[id].(state := closed)];
        }
      } else {
        CloseOpenExceptions(closed);
      }
      audit := audit + [AuditRow(LinkRedemption, current, newStatus)];
      if v == Approve { postJob := true; }
      reply := Redeemed;
    }

    method ResolveException(id: nat, actor: UserId, note: string, now: Time) returns (reply: ResolveReply)
      modifies this`exceptions
      ensures (View(), reply) == ResolveTx(old(View()), id, actor, note, now)
    {
      if id >= |exceptions| { return ExceptionNotFound; }
      if exceptions[id].state != Open { return ExceptionAlreadySettled; }
      var text := if note == "" then "resolved from the exceptions queue" else note;
      exceptions := exceptions[id := exceptions[id].(state := Resolved(Some(actor), now, text))];
      reply := ExceptionResolved;
    }

    /** False when it raises InvalidStateTransition. */
    method RerunMatch() returns (ok: bool)
      modifies this`status, this`audit, this`rerunJobs
      ensures ok <==> RerunTx(old(View())).Some?
      ensures View() == if ok then RerunTx(old(View())).value else old(View())
    {
      ok := Transition(RerunRequest, status, Matching);
      if ok { rerunJobs := rerunJobs + 1; }
    }

    /** handle_extract run alone: its effect is that of its commits, one workflow step each. */
    method HandleExtract(backendOk: bool, last: bool) returns (raised: bool)
      modifies this
      ensures View() == Run(World(old(View()), map[0 := ExtractClaimed(last)]), ExtractScript(backendOk)).db
      ensures raised <==> !(backendOk && Allowed(old(status), Extracting))
    {
      ExtractLeads(View(), backendOk, last);
      var entered := Transition(Worker, status, Extracting);
      if !entered { return true; }
      if !backendOk {
        if last { var _ := Transition(Worker, Extracting, ExtractionFailed); }
        return true;
      }
      lineBatches := lineBatches + 1;
      var _ := Transition(Worker, Extracting, Extracted);
      firstMatchJob := true;
      raised := false;
    }

    /** handle_match run alone: its commits, one workflow step each, and when it raises. */
    method HandleMatch(load: MatchLoad, contacts: seq<Token>) returns (raised: bool)
      modifies this
      ensures View()
              == Run(Run(World(old(View()), map[0 := MatchClaimed]), MatchScript(load)), IssueScript(contacts)).db
      ensures raised <==>
          || !Allowed(old(status), Matching) || load.ContextMissing? || (load.Matched? && load.ev.total.None?)
          || (WillIssue(old(View()), load)
              && UsedToken(old(approvals), contacts, Decide(load.ev).requiredApprovers))
    {
      MatchLeads(View(), load, contacts);
      var entered := Transition(Worker, status, Matching);
      if !entered || load.ContextMissing? { return true; }
      if load.Malformed? {
        var _ := Transition(Worker, Matching, NeedsVerification);
        return false;
      }
      if load.ev.total.None? { return true; }
      raised := FinishMatch(load.ev, contacts);
    }

    /** handle_match once the match result is there. */
    method FinishMatch(ev: Evidence, contacts: seq<Token>) returns (raised: bool)
      requires ev.total.Some?
      modifies this
      ensures View() == WithTokens(Decided(WithResult(old(View()), ev), ev), ev, contacts, |old(exceptions)|)
      ensures raised
              <==> Decide(ev).PendingApprovalBy? && UsedToken(old(approvals), contacts, Decide(ev).requiredApprovers)
    {
      matchRuns := matchRuns + [ev];
      var firstException := |exceptions|;
      exceptions := exceptions + NewExceptions(ev.findings);
      var required := ApplyDecision(ev);
      if required.None? { return false; }
      raised := IssueTokens(contacts, required.value, FirstBlock(ev.findings, firstException));
    }

    /** `_apply_decision`: one status write, or two; how many approvers are then to be asked. */
    method ApplyDecision(ev: Evidence) returns (required: Option<nat>)
      requires ev.total.Some?
      modifies this`status, this`audit
      ensures View() == Decided(old(View()), ev)
      ensures required == if Decide(ev).PendingApprovalBy? then Some(Decide(ev).requiredApprovers) else None
    {
      var decision := Decide(ev);
      RoutesAreLegal(ev);
      if decision.NeedsCheck? {
        var _ := Transition(Worker, Matching, NeedsVerification);
        return None;
      }
      var intermediate := Intermediate(ev.result);
      var _ := Transition(Worker, Matching, intermediate);
      if decision.AutoPost? {
        var _ := Transition(Worker, intermediate, AutoPosted);
        return None;
      }
      var _ := Transition(Worker, intermediate, PendingApproval);
      required := Some(decision.requiredApprovers);
    }

    /** One token and its notify job; false when the unique constraint on
        approval_requests.token_hash raises. */
    method IssueOne(c: Token, exceptionId: Option<nat>) returns (ok: bool)
      modifies this`approvals, this`notices
      ensures ok <==> FindToken(old(approvals), c.hash) == |old(approvals)|
      ensures View() == if ok then WithToken(old(View()), c, exceptionId) else old(View())
    {
      var k := LookUpToken(c.hash);
      ok := k == |approvals|;
      if ok {
        var row := NewApproval(c.hash, c.recipient, exceptionId, c.expiresAt);
        approvals, notices := approvals + [row], notices + [NoticeOf(row)];
      }
    }

    /** One approval row and one notify job per contact, up to the required number; a token
        already in use raises. */
    method IssueTokens(contacts: seq<Token>, required: nat, exceptionId: Option<nat>) returns (raised: bool)
      modifies this`approvals, this`notices
      ensures View() == Issued(old(View()), contacts, required, exceptionId)
      ensures raised <==> UsedToken(old(approvals), contacts, required)
    {
      CollidesExactly(View(), contacts, required, exceptionId);
      var i := 0;
      while i < |contacts| && i < required
        invariant i <= |contacts| && i <= required
        invariant Issued(old(View()), contacts, required, exceptionId)
                  == Issued(View(), contacts[i..], required - i, exceptionId)
        invariant Collides(old(View()), contacts, required, exceptionId)
                  == Collides(View(), contacts[i..], required - i, exceptionId)
      {
        var ok := IssueOne(contacts[i], exceptionId);
        if !ok { return true; }
        i := i + 1;
      }
      raised := false;
    }
  }

  function WithToken(t: Tables, c: Token, exceptionId: Option<nat>): Tables {
    var row := NewApproval(c.hash, c.recipient, exceptionId, c.expiresAt);
    t.(approvals := t.approvals + [row], notices := t.notices + [NoticeOf(row)])
  }

  /** The i-th contact's token is that of a row already there, or of an earlier contact. */
  ghost predicate UsedAt(rows: seq<ApprovalRow>, contacts: seq<Token>, i: nat)
    requires i < |contacts|
  {
    || (exists r :: 0 <= r < |rows| && rows[r].tokenHash == contacts[i].hash)
    || (exists k :: 0 <= k < i && contacts[k].hash == contacts[i].hash)
  }

  ghost predicate UsedToken(rows: seq<ApprovalRow>, contacts: seq<Token>, required: nat) {
    exists i :: 0 <= i < |contacts| && i < required && UsedAt(rows, contacts, i)
  }

  /** The rows after the loop over the approvers, up to the first token already in use. */
  function Issued(t: Tables, contacts: seq<Token>, left: nat, exceptionId: Option<nat>): Tables
    decreases |contacts|
  {
    if contacts == [] || left == 0 || FindToken(t.approvals, contacts[0].hash) < |t.approvals| then t
    else Issued(WithToken(t, contacts[0], exceptionId), contacts[1..], left - 1, exceptionId)
  }

  /** The loop meets a token already in use. */
  predicate Collides(t: Tables, contacts: seq<Token>, left: nat, exceptionId: Option<nat>)
    decreases |contacts|
  {
    contacts != [] && left > 0
    && (FindToken(t.approvals, contacts[0].hash) < |t.approvals|
        || Collides(WithToken(t, contacts[0], exceptionId), contacts[1..], left - 1, exceptionId))
  }

  lemma {:induction false} UsedShifts(rows: seq<ApprovalRow>, row: ApprovalRow, contacts: seq<Token>, i: nat)
    requires i + 1 < |contacts| && row.tokenHash == contacts[0].hash
    ensures UsedAt(rows + [row], contacts[1..], i) <==> UsedAt(rows, contacts, i + 1)
  {
    var all, hash := rows + [row], contacts[i + 1].hash;
    assert all[|rows|] == row && forall r :: 0 <= r < |rows| ==> all[r] == rows[r];
    assert forall k :: 0 <= k < i ==> contacts[1..][k] == contacts[k + 1];
    if k :| 0 <= k < i + 1 && contacts[k].hash == hash {
      if k == 0 { assert all[|rows|].tokenHash == hash; } else { assert contacts[1..][k - 1].hash == hash; }
    }
  }

  lemma {:induction false} FirstUsed(rows: seq<ApprovalRow>, contacts: seq<Token>)
    requires contacts != []
    ensures UsedAt(rows, contacts, 0) <==> FindToken(rows, contacts[0].hash) < |rows|
  {
  }

  lemma {:induction false} CollidesExactly(t: Tables, contacts: seq<Token>, left: nat, exceptionId: Option<nat>)
    ensures Collides(t, contacts, left, exceptionId) <==> UsedToken(t.approvals, contacts, left)
    decreases |contacts|
  {
    if contacts != [] && left > 0 {
      var u := WithToken(t, contacts[0], exceptionId);
      CollidesExactly(u, contacts[1..], left - 1, exceptionId);
      FirstUsed(t.approvals, contacts);
      forall i | 0 <= i < |contacts| - 1
        ensures UsedAt(u.approvals, contacts[1..], i) <==> UsedAt(t.approvals, contacts, i + 1)
      {
        UsedShifts(t.approvals, u.approvals[|t.approvals|], contacts, i);
      }
      if i :| 0 <= i < |contacts| && i < left && UsedAt(t.approvals, contacts, i) {
        if i > 0 { assert UsedAt(u.approvals, contacts[1..], i - 1); }
      }
    }
  }

  function AfterContact(w: World, c: Token): World {
    Apply(Apply(w, Do(0, IssueToken(c.hash, c.recipient, c.expiresAt))), Do(0, EnqueueNotify))
  }

  ghost predicate IssuesNothing(w: World) {
    0 in w.execs ==> !w.execs[0].Issuing? && !w.execs[0].Announcing?
  }

  lemma {:induction false} NoIssuerNoToken(w: World, contacts: seq<Token>)
    requires IssuesNothing(w)
    ensures Run(w, IssueScript(contacts)).db == w.db
  {
    if contacts != [] {
      NoIssuerNoToken(w, contacts[1..]);
    }
  }

  /** `u` is `w` after one contact: nothing, and the execution over, or a token and its job. */
  ghost predicate ContactDone(w: World, u: World, c: Token, left: nat, exceptionId: Option<nat>) {
    if left == 0 || FindToken(w.db.approvals, c.hash) < |w.db.approvals| then u.db == w.db && 0 !in u.execs
    else u.db == WithToken(w.db, c, exceptionId) && 0 in u.execs && u.execs[0] == Issuing(left - 1, exceptionId)
  }

  lemma {:induction false} IssuedAfterOne(w: World, u: World, contacts: seq<Token>, left: nat, exceptionId: Option<nat>)
    requires contacts != [] && ContactDone(w, u, contacts[0], left, exceptionId)
    ensures Run(u, IssueScript(contacts[1..])).db == Issued(w.db, contacts, left, exceptionId)
    decreases |contacts|, 0
  {
    if 0 in u.execs {
      IssuedIsRun(u, contacts[1..], left - 1, exceptionId);
    } else {
      NoIssuerNoToken(u, contacts[1..]);
    }
  }

  lemma {:induction false} IssuedIsRun(w: World, contacts: seq<Token>, left: nat, exceptionId: Option<nat>)
    requires 0 in w.execs && w.execs[0] == Issuing(left, exceptionId)
    ensures Run(w, IssueScript(contacts)).db == Issued(w.db, contacts, left, exceptionId)
    decreases |contacts|, 1
  {
    if contacts != [] {
      IssuedAfterOne(w, AfterContact(w, contacts[0]), contacts, left, exceptionId);
    }
  }

  /** The rows after a handle_extract run alone. */
  function ExtractOutcome(t: Tables, backendOk: bool, last: bool): Tables {
    if !Allowed(t.status, Extracting) then t
    else
      var u := WriteStatus(t, Worker, t.status, Extracting);
      if backendOk
      then WriteStatus(u.(lineBatches := u.lineBatches + 1), Worker, Extracting, Extracted).(firstMatchJob := true)
      else if last then WriteStatus(u, Worker, Extracting, ExtractionFailed)
      else u
  }

  lemma {:induction false} ExtractLeads(t: Tables, backendOk: bool, last: bool)
    ensures Run(World(t, map[0 := ExtractClaimed(last)]), ExtractScript(backendOk)).db
            == ExtractOutcome(t, backendOk, last)
  {
    var w0 := World(t, map[0 := ExtractClaimed(last)]);
    var w1 := Apply(w0, Do(0, EnterExtracting));
    if !Allowed(t.status, Extracting) {
      assert w1 == World(t, map[]);
    } else {
      assert w1 == World(WriteStatus(t, Worker, t.status, Extracting), map[0 := BackendAtWork(last)]);
    }
    if backendOk {
      RunOf4(w0, Do(0, EnterExtracting), Do(0, SaveLines), Do(0, FinishExtract), Do(0, EnqueueMatch));
    } else {
      TwoSteps(w0, Do(0, EnterExtracting), Do(0, BackendFails));
    }
  }

  /** The rows once MATCHING is written, and once a result and its findings are saved too. */
  function Entered(t: Tables): Tables {
    WriteStatus(t, Worker, t.status, Matching)
  }

  function WithResult(t: Tables, ev: Evidence): Tables {
    t.(matchRuns := t.matchRuns + [ev], exceptions := t.exceptions + NewExceptions(ev.findings))
  }

  function Recorded(t: Tables, ev: Evidence): Tables {
    WithResult(Entered(t), ev)
  }

  /** ... and then the tokens, if the decision asks for approval. */
  function WithTokens(t: Tables, ev: Evidence, contacts: seq<Token>, firstException: nat): Tables {
    match Decide(ev)
    case PendingApprovalBy(n) => Issued(t, contacts, n, FirstBlock(ev.findings, firstException))
    case _ => t
  }

  /** `_apply_decision` on the rows of an invoice in MATCHING. */
  function Decided(t: Tables, ev: Evidence): Tables {
    var mid := Intermediate(ev.result);
    match Decide(ev)
    case NeedsCheck => WriteStatus(t, Worker, Matching, NeedsVerification)
    case AutoPost => WriteStatus(WriteStatus(t, Worker, Matching, mid), Worker, mid, AutoPosted)
    case PendingApprovalBy(_) => WriteStatus(WriteStatus(t, Worker, Matching, mid), Worker, mid, PendingApproval)
    case MatchingError => t
  }

  /** The rows when handle_match stops writing statuses. */
  function Outcome(t: Tables, load: MatchLoad): Tables {
    if !Allowed(t.status, Matching) then t
    else
      match load
      case ContextMissing => Entered(t)
      case Malformed => WriteStatus(Entered(t), Worker, Matching, NeedsVerification)
      case Matched(ev) => if ev.total.None? then Entered(t) else Decided(Recorded(t, ev), ev)
  }

  ghost predicate WillIssue(t: Tables, load: MatchLoad) {
    Allowed(t.status, Matching) && load.Matched? && load.ev.total.Some? && Decide(load.ev).PendingApprovalBy?
  }

  lemma {:induction false} UpToFindings(w0: World, ev: Evidence)
    requires w0.execs == map[0 := MatchClaimed]
    ensures var t, w := w0.db, Apply(Apply(Apply(w0, Do(0, EnterMatching)), Do(0, SaveRun(ev))), Do(0, SaveFindings));
            if !Allowed(t.status, Matching) then w == World(t, map[])
            else if ev.total.None? then w == World(Entered(t), map[])
            else w == World(Recorded(t, ev), map[0 := FindingsSaved(|t.matchRuns|, |t.exceptions|)])
  {
    var w1 := Apply(w0, Do(0, EnterMatching));
    if Allowed(w0.db.status, Matching) {
      assert w1 == World(Entered(w0.db), map[0 := Loading]);
    } else {
      assert w1 == World(w0.db, map[]);
    }
  }

  lemma {:induction false} FromFindings(w: World, ev: Evidence, base: nat)
    requires w.db.matchRuns != [] && w.db.matchRuns[|w.db.matchRuns| - 1] == ev && ev.total.Some?
    requires w.execs == map[0 := FindingsSaved(|w.db.matchRuns| - 1, base)]
    ensures var u := Apply(Apply(w, Do(0, ApplyFirst)), Do(0, ApplySecond));
            && u.db == Decided(w.db, ev)
            && u.execs == match Decide(ev)
                          case PendingApprovalBy(n) => map[0 := Issuing(n, FirstBlock(ev.findings, base))]
                          case _ => map[]
  {
    RoutesAreLegal(ev);
    var u1 := Apply(w, Do(0, ApplyFirst));
    if Decide(ev).NeedsCheck? {
      assert u1.execs == map[];
    } else {
      assert u1 == World(WriteStatus(w.db, Worker, Matching, Intermediate(ev.result)),
                         map[0 := Routed(|w.db.matchRuns| - 1, base)]);
    }
  }

  /** Where the commits of handle_match lead. */
  lemma {:induction false} MatchUpToTokens(w0: World, load: MatchLoad)
    requires w0.execs == map[0 := MatchClaimed]
    ensures var t, w := w0.db, Run(w0, MatchScript(load));
            && w.db == Outcome(t, load)
            && (WillIssue(t, load) ==>
                  w.execs == map[0 := Issuing(Decide(load.ev).requiredApprovers,
                      FirstBlock(load.ev.findings, |t.exceptions|))])
            && (!WillIssue(t, load) ==> IssuesNothing(w))
  {
    match load
    case ContextMissing => OneStep(w0, Do(0, EnterMatching));
    case Malformed => TwoSteps(w0, Do(0, EnterMatching), Do(0, RejectMalformed));
    case Matched(ev) =>
      RunOf5(w0, Do(0, EnterMatching), Do(0, SaveRun(ev)), Do(0, SaveFindings), Do(0, ApplyFirst), Do(0, ApplySecond));
      UpToFindings(w0, ev);
      if !Allowed(w0.db.status, Matching) || ev.total.None? { return; }
      FromFindings(World(Recorded(w0.db, ev), map[0 := FindingsSaved(|w0.db.matchRuns|, |w0.db.exceptions|)]), ev,
          |w0.db.exceptions|);
  }

  /** The rows after a handle_match run alone. */
  ghost function MatchOutcome(t: Tables, load: MatchLoad, contacts: seq<Token>): Tables {
    if WillIssue(t, load) then WithTokens(Outcome(t, load), load.ev, contacts, |t.exceptions|) else Outcome(t, load)
  }

  lemma {:induction false} MatchLeads(t: Tables, load: MatchLoad, contacts: seq<Token>)
    ensures Run(Run(World(t, map[0 := MatchClaimed]), MatchScript(load)), IssueScript(contacts)).db
            == MatchOutcome(t, load, contacts)
  {
    var w0 := World(t, map[0 := MatchClaimed]);
    var w := Run(w0, MatchScript(load));
    MatchUpToTokens(w0, load);
    if WillIssue(t, load) {
      IssuedIsRun(w, contacts, Decide(load.ev).requiredApprovers, FirstBlock(load.ev.findings, |t.exceptions|));
    } else {
      NoIssuerNoToken(w, contacts);
    }
  }
}
