/** Decisions over the approval rows of one invoice, in-app and by link: what one decision signs,
    when it settles the invoice, and when a settled invoice's status is the verdict of all rows. */
module ApprovalQuorum {
  import opened Wrappers
  import opened InvoiceStatus
  import opened Decision
  import opened Workflow
  import opened WorkflowSafety
  import opened WorkflowRuns

  // ---- one decision -----------------------------------------------------------

  lemma {:induction false} AllApproved(rows: seq<ApprovalRow>)
    ensures ApprovedCount(rows) == |rows| <==> forall i :: 0 <= i < |rows| ==> rows[i].decision == Some(Approve)
  {
    if rows != [] {
      var init := rows[..|rows| - 1];
      AllApproved(init);
      assert forall i :: 0 <= i < |init| ==> init[i] == rows[i];
    }
  }

  ghost predicate OthersApproved(rows: seq<ApprovalRow>, mine: nat) {
    forall i :: 0 <= i < |rows| && i != mine ==> rows[i].decision == Some(Approve)
  }

  lemma {:induction false} ReceivedMeansOthersApproved(rows: seq<ApprovalRow>, mine: nat)
    requires mine < |rows|
    ensures ApprovalsReceived(rows, mine) < |rows| <==> !OthersApproved(rows, mine)
  {
    AllApproved(rows[..mine]);
    AllApproved(rows[mine + 1..]);
    if !OthersApproved(rows, mine) {
      var i :| 0 <= i < |rows| && i != mine && rows[i].decision != Some(Approve);
      if i < mine { assert rows[..mine][i] == rows[i]; } else { assert rows[mine + 1..][i - mine - 1] == rows[i]; }
    }
  }

  /** An in-app approval settles a pending invoice exactly when every other row issued so far is
      approved, and then with as many approvals as rows. The number of approvers the policy asked
      for plays no part. */
  lemma {:induction false} ApprovalSettlesExactly(t: Tables, actor: Actor, now: Time, pick: nat)
    requires t.status == PendingApproval && actor.mayDecide
    requires Mine(t.approvals, Contacts(actor), pick) < |t.approvals|
    ensures DecideTx(t, Some(actor), Approve, now, pick).1 == Settled(Approve) <==>
            OthersApproved(t.approvals, Mine(t.approvals, Contacts(actor), pick))
    ensures DecideTx(t, Some(actor), Approve, now, pick).1 == Settled(Approve) ==>
            ApprovedCount(DecideTx(t, Some(actor), Approve, now, pick).0.approvals) == |t.approvals|
    ensures DecideTx(t, Some(actor), Reject, now, pick).1 == Settled(Reject)
  {
    var mine := Mine(t.approvals, Contacts(actor), pick);
    ReceivedMeansOthersApproved(t.approvals, mine);
    AllApproved(ApproveOne(t.approvals, mine, actor.id, now));
  }

  /** What a decision by `actor` may do to one row. */
  ghost predicate SignedBy(row: ApprovalRow, after: ApprovalRow, actor: Actor) {
    after.decidedBy != row.decidedBy ==> after.decidedBy == Some(actor.id) && OpenFor(row, Contacts(actor))
  }

  /** A decision signs only the actor's own open row, and, on a veto, closes the other
      open ones without naming anyone. */
  lemma {:induction false} DecisionSignsOnlyOwnRow(t: Tables, actor: Actor, v: Verdict, now: Time, pick: nat, i: nat)
    requires i < |t.approvals|
    ensures var u := DecideTx(t, Some(actor), v, now, pick).0;
            && |u.approvals| == |t.approvals|
            && SignedBy(t.approvals[i], u.approvals[i], actor)
            && (u != t ==> actor.mayDecide)
            && (v == Approve && u.approvals[i] != t.approvals[i] ==> i == Mine(t.approvals, Contacts(actor), pick))
            && (v == Reject && u != t ==> u.approvals[i].consumedAt.Some?)
  {
  }

  // ---- the quorum -------------------------------------------------------------

  /** The status is the verdict of the rows: approved by all, or rejected by one with none open. */
  ghost predicate Quorum(t: Tables) {
    && AtApproval(t.status)
    && (t.status == Approved <==> forall i :: 0 <= i < |t.approvals| ==> t.approvals[i].decision == Some(Approve))
    && (t.status == Rejected <==> exists i :: 0 <= i < |t.approvals| && t.approvals[i].decision == Some(Reject))
    && (t.status == Rejected ==> forall i :: 0 <= i < |t.approvals| ==> t.approvals[i].consumedAt.Some?)
  }

  predicate IsSettled(s: Status) {
    s == Approved || s == Rejected
  }

  /** A step that issues a token for an invoice already settled. */
  predicate Late(w: World, st: Step) {
    IsSettled(w.db.status) && |Apply(w, st).db.approvals| > |w.db.approvals|
  }

  predicate OtherOpen(rows: seq<ApprovalRow>, k: nat) {
    exists i :: 0 <= i < |rows| && i != k && rows[i].consumedAt.None?
  }

  /** A link that settles the invoice while another row is open. */
  predicate EarlyLink(w: World, st: Step) {
    && st.Redeem? && RedeemTx(w.db, st.hash, st.verdict, st.who, st.now).1 == Redeemed
    && OtherOpen(w.db.approvals, FindToken(w.db.approvals, st.hash))
  }

  /** Some step of the run was late or early. */
  predicate Loosened(w: World, steps: seq<Step>)
    decreases |steps|
  {
    steps != [] && (Late(w, steps[0]) || EarlyLink(w, steps[0]) || Loosened(Apply(w, steps[0]), steps[1..]))
  }

  ghost predicate NoLinks(steps: seq<Step>) {
    forall st <- steps :: !st.Redeem?
  }

  predicate SomeOpen(rows: seq<ApprovalRow>) {
    exists i :: 0 <= i < |rows| && rows[i].consumedAt.None?
  }

  predicate NoReject(rows: seq<ApprovalRow>) {
    forall i :: 0 <= i < |rows| ==> rows[i].decision != Some(Reject)
  }

  /** How the rows stand; `late` says that a step of the run so far was late or early. */
  ghost predicate Standing(t: Tables, late: bool) {
    match t.status
    case PendingApproval => !late && NoReject(t.approvals) && (t.approvals != [] ==> SomeOpen(t.approvals))
    case Approved => t.approvals != [] && NoReject(t.approvals) && (late <==> SomeOpen(t.approvals))
    case Rejected => !NoReject(t.approvals) && (!late ==> !SomeOpen(t.approvals))
    case _ => !late
  }

  lemma {:induction false} DecidedWithoutReject(row: ApprovalRow)
    requires row.decision != Some(Reject)
    ensures row.decision.None? || row.decision == Some(Approve)
  {
    match row.decision
    case None =>
    case Some(v) => if v.Reject? { assert false; }
  }

  lemma {:induction false} StandingIsQuorum(t: Tables, late: bool)
    requires Tokens(t.approvals) && t.approvals != [] && AtApproval(t.status) && Standing(t, late)
    ensures Quorum(t) <==> !late || (t.status == Rejected && !SomeOpen(t.approvals))
  {
    var rows := t.approvals;
    if NoReject(rows) && !SomeOpen(rows) {
      forall i | 0 <= i < |rows|
        ensures rows[i].decision == Some(Approve)
      {
        DecidedWithoutReject(rows[i]);
        assert rows[i].consumedAt.Some?;
      }
    }
    if SomeOpen(rows) {
      var i :| 0 <= i < |rows| && rows[i].consumedAt.None?;
      assert rows[i].decision.None?;
    }
  }

  lemma {:induction false} VetoStands(t: Tables, mine: nat, actor: UserId, now: Time, late: bool)
    requires mine < |t.approvals| && Standing(t, late)
    ensures Standing(VetoTx(t, mine, actor, now).0, late)
  {
    var rows := Veto(t.approvals, mine, actor, now);
    assert rows[mine].decision == Some(Reject);
  }

  lemma {:induction false} ApproveStands(t: Tables, mine: nat, actor: UserId, now: Time, late: bool)
    requires mine < |t.approvals| && t.approvals[mine].consumedAt.None? && Tokens(t.approvals)
    requires AtApproval(t.status) && Standing(t, late)
    ensures Standing(ApproveTx(t, mine, actor, now).0, late)
  {
    ReceivedMeansOthersApproved(t.approvals, mine);
    var rows, after := t.approvals, ApproveOne(t.approvals, mine, actor, now);
    assert forall i :: 0 <= i < |rows| && i != mine ==> after[i] == rows[i];
    if OthersApproved(rows, mine) {
      assert NoReject(after) && !SomeOpen(after);
    } else {
      var i :| 0 <= i < |rows| && i != mine && rows[i].decision != Some(Approve);
      assert after[i] == rows[i];
      if NoReject(rows) { DecidedWithoutReject(rows[i]); assert rows[i].decision.None? && after[i].consumedAt.None?; }
    }
    if !NoReject(rows) {
      var j :| 0 <= j < |rows| && rows[j].decision == Some(Reject);
      assert rows[j].consumedAt.Some? && after[j] == rows[j];
    }
  }

  lemma {:induction false} InAppStands(w: World, a: Option<Actor>, v: Verdict, now: Time, pick: nat, late: bool)
    requires Inv(w) && Standing(w.db, late)
    ensures Standing(DecideTx(w.db, a, v, now, pick).0, late)
  {
    var t := w.db;
    if a.Some? && a.value.mayDecide {
      var mine := Mine(t.approvals, Contacts(a.value), pick);
      if mine < |t.approvals| {
        if v == Reject {
          VetoStands(t, mine, a.value.id, now, late);
        } else {
          ApproveStands(t, mine, a.value.id, now, late);
        }
      }
    }
  }

  lemma {:induction false} LinkStands(t: Tables, hash: TokenHash, v: Verdict, who: Option<UserId>, now: Time,
          late: bool)
    requires Standing(t, late) && RedeemTx(t, hash, v, who, now).1 == Redeemed
    ensures Standing(RedeemTx(t, hash, v, who, now).0, late || OtherOpen(t.approvals, FindToken(t.approvals, hash)))
  {
    var k := FindToken(t.approvals, hash);
    var after := RedeemTx(t, hash, v, who, now).0.approvals;
    assert |after| == |t.approvals| && after[k].decision == Some(v) && after[k].consumedAt.Some?;
    assert forall i :: 0 <= i < |after| && i != k ==> after[i] == t.approvals[i];
    assert OtherOpen(t.approvals, k) <==> SomeOpen(after);
  }

  lemma {:induction false} NewRowStands(t: Tables, u: Tables, late: bool)
    requires Standing(t, late) && AtApproval(t.status) && u.status == t.status
    requires |u.approvals| == |t.approvals| + 1 && t.approvals <= u.approvals
    requires u.approvals[|t.approvals|].consumedAt.None? && u.approvals[|t.approvals|].decision.None?
    ensures Standing(u, late || IsSettled(t.status))
  {
    var n := |t.approvals|;
    assert forall i :: 0 <= i < n ==> u.approvals[i] == t.approvals[i];
    assert SomeOpen(u.approvals);
    if NoReject(t.approvals) { assert NoReject(u.approvals); }
  }

  lemma {:induction false} HandlerStands(w: World, e: ExecId, c: Commit, late: bool)
    requires Inv(w) && e in w.execs && Standing(w.db, late)
    ensures var u := Advance(w, e, w.execs[e], c).db;
            Standing(u, late || (IsSettled(w.db.status) && |u.approvals| > |w.db.approvals|))
  {
    var x, t := w.execs[e], w.db;
    var u := Advance(w, e, x, c).db;
    HandlerKeepsHistory(w, e, c);
    HeldIsCurrent(x, t);
    if u.approvals != t.approvals { NewRowStands(t, u, late); }
  }

  lemma {:induction false} RedeemStands(w: World, hash: TokenHash, v: Verdict, who: Option<UserId>, now: Time,
          late: bool)
    requires Standing(w.db, late)
    ensures Standing(RedeemTx(w.db, hash, v, who, now).0, late || EarlyLink(w, Redeem(hash, v, who, now)))
  {
    if RedeemTx(w.db, hash, v, who, now).1 == Redeemed { LinkStands(w.db, hash, v, who, now, late); }
  }

  lemma {:induction false} StepStands(w: World, st: Step, late: bool)
    requires Inv(w) && Standing(w.db, late)
    ensures Standing(Apply(w, st).db, late || Late(w, st) || EarlyLink(w, st))
  {
    match st
    case InApp(a, v, now, pick) => InAppStands(w, a, v, now, pick, late); InAppShape(w.db, a, v, now, pick);
    case Rerun =>
    case Resolve(_, _, _, _) =>
    case ClaimExtract(_, _) =>
    case ClaimMatch(_) =>
    case Crash(_) =>
    case Redeem(h, v, who, now) => RedeemStands(w, h, v, who, now, late);
    case Do(e, c) => if e in w.execs { HandlerStands(w, e, c, late); }
  }

  lemma {:induction false} RunStands(w: World, steps: seq<Step>, late: bool)
    requires Inv(w) && Standing(w.db, late)
    ensures Standing(Run(w, steps).db, late || Loosened(w, steps)) && Inv(Run(w, steps))
    decreases |steps|
  {
    if steps != [] {
      StepStands(w, steps[0], late);
      StepKeepsInv(w, steps[0]);
      RunStands(Apply(w, steps[0]), steps[1..], late || Late(w, steps[0]) || EarlyLink(w, steps[0]));
    }
  }

  /** Over every run, from the first token on: the status is the verdict of all the rows if and
      only if no token was issued after the settlement and no link settled while another row was
      open, or the invoice was rejected and each row then left open has been answered since. */
  lemma {:induction false} QuorumExactly(steps: seq<Step>)
    requires Run(START, steps).db.approvals != []
    ensures var t := Run(START, steps).db;
            Quorum(t) <==> !Loosened(START, steps) || (t.status == Rejected && !SomeOpen(t.approvals))
  {
    RunStands(START, steps, false);
    StandingIsQuorum(Run(START, steps).db, Loosened(START, steps));
  }

  /** A settlement by link is the verdict of all rows, when it is made, exactly if no other row is
      open; for an approving link that is, exactly if every other row is approved. */
  lemma {:induction false} LinkSettlesForAllExactly(before: seq<Step>, hash: TokenHash, v: Verdict,
          who: Option<UserId>, now: Time)
    requires RedeemTx(Run(START, before).db, hash, v, who, now).1 == Redeemed
    ensures var t := Run(START, before).db; var k := FindToken(t.approvals, hash);
            && (Quorum(RedeemTx(t, hash, v, who, now).0) <==> !OtherOpen(t.approvals, k))
            && (!OtherOpen(t.approvals, k) <==> OthersApproved(t.approvals, k))
  {
    var w := Run(START, before);
    RunStands(START, before, false);
    LinkQuorum(w, hash, v, who, now);
    OpenMeansUndecided(w.db.approvals, FindToken(w.db.approvals, hash));
  }

  lemma {:induction false} LinkQuorum(w: World, hash: TokenHash, v: Verdict, who: Option<UserId>, now: Time)
    requires Inv(w) && Standing(w.db, false) && RedeemTx(w.db, hash, v, who, now).1 == Redeemed
    ensures Quorum(RedeemTx(w.db, hash, v, who, now).0)
            <==> !OtherOpen(w.db.approvals, FindToken(w.db.approvals, hash))
    ensures NoReject(w.db.approvals)
  {
    var u, k := RedeemTx(w.db, hash, v, who, now).0, FindToken(w.db.approvals, hash);
    LinkStands(w.db, hash, v, who, now, false);
    LinkShape(w.db, hash, v, who, now);
    DecisionKeepsInv(w, u, LinkRedemption);
    StandingIsQuorum(u, OtherOpen(w.db.approvals, k));
    if SomeOpen(u.approvals) {
      var i :| 0 <= i < |u.approvals| && u.approvals[i].consumedAt.None?;
      assert i != k && w.db.approvals[i] == u.approvals[i];
    }
  }

  lemma {:induction false} OpenMeansUndecided(rows: seq<ApprovalRow>, k: nat)
    requires Tokens(rows) && NoReject(rows)
    ensures !OtherOpen(rows, k) <==> OthersApproved(rows, k)
  {
    forall i | 0 <= i < |rows|
      ensures rows[i].consumedAt.None? <==> rows[i].decision != Some(Approve)
    {
      DecidedWithoutReject(rows[i]);
    }
  }

  lemma {:induction false} LooseJoins(w: World, first: seq<Step>, second: seq<Step>)
    ensures Loosened(w, first + second) <==> Loosened(w, first) || Loosened(Run(w, first), second)
    decreases |first|
  {
    if first == [] {
      assert first + second == second;
    } else {
      assert (first + second)[1..] == first[1..] + second;
      LooseJoins(Apply(w, first[0]), first[1..], second);
    }
  }

  /** An approval with a row left open never becomes the verdict of all: the last open row can no
      longer be decided. */
  lemma {:induction false} LooseApprovalIsForGood(before: seq<Step>, after: seq<Step>)
    requires Loosened(START, before) && Run(START, before).db.status == Approved
    ensures !Quorum(Run(START, before + after).db)
  {
    HistoryIsNeverRewritten(before, after);
    LooseJoins(START, before, after);
    EveryRunIsSafe(before);
    RunStands(START, before, false);
    QuorumExactly(before + after);
  }

  // ---- once every token is issued ---------------------------------------------

  function TokensLeft(x: Exec): nat {
    if x.Issuing? || x.Announcing? then x.left else 0
  }

  ghost predicate AllIssued(w: World) {
    forall e <- w.execs :: TokensLeft(w.execs[e]) == 0
  }

  lemma {:induction false} NoMoreTokens(w: World, st: Step)
    requires Inv(w) && AllIssued(w) && AtApproval(w.db.status)
    ensures var u := Apply(w, st);
            AllIssued(u) && AtApproval(u.db.status) && |u.db.approvals| == |w.db.approvals|
  {
    match st
    case InApp(a, v, now, pick) => InAppShape(w.db, a, v, now, pick);
    case Redeem(h, v, who, now) => LinkShape(w.db, h, v, who, now);
    case Rerun =>
    case Resolve(_, _, _, _) =>
    case ClaimExtract(_, _) =>
    case ClaimMatch(_) =>
    case Crash(_) =>
    case Do(_, _) =>
  }

  lemma {:induction false} NeverLoose(w: World, steps: seq<Step>)
    requires Inv(w) && AllIssued(w) && AtApproval(w.db.status) && NoLinks(steps)
    ensures !Loosened(w, steps) && |Run(w, steps).db.approvals| == |w.db.approvals|
            && AtApproval(Run(w, steps).db.status)
    decreases |steps|
  {
    if steps != [] {
      NoMoreTokens(w, steps[0]);
      StepKeepsInv(w, steps[0]);
      NeverLoose(Apply(w, steps[0]), steps[1..]);
    }
  }

  /** From a pending invoice for which nobody is issuing another token, some row open and none
      rejected, and as long as no link is redeemed: APPROVED exactly when all rows are approved,
      REJECTED exactly when one is rejected, and then none is open. */
  lemma {:induction false} InAppDecisionsNeedEveryRow(w: World, steps: seq<Step>)
    requires Inv(w) && AllIssued(w) && w.db.status == PendingApproval
    requires SomeOpen(w.db.approvals) && NoReject(w.db.approvals)
    requires NoLinks(steps)
    ensures Quorum(Run(w, steps).db) && |Run(w, steps).db.approvals| == |w.db.approvals|
    ensures Run(w, steps).db.status == Approved ==> ApprovedCount(Run(w, steps).db.approvals) == |w.db.approvals|
  {
    RunStands(w, steps, false);
    NeverLoose(w, steps);
    StandingIsQuorum(Run(w, steps).db, false);
    AllApproved(Run(w, steps).db.approvals);
  }

  // ---- the race ---------------------------------------------------------------

  lemma {:induction false} FollowOne(w: World, steps: seq<Step>)
    requires steps != []
    ensures Run(w, steps) == Run(Apply(w, steps[0]), steps[1..])
  {
  }

  lemma {:induction false} Extracts() returns (steps: seq<Step>)
    ensures var w := Run(START, steps);
            && w.execs == map[1 := MatchClaimed] && w.db.status == Extracted && w.db.matchRuns == []
            && w.db.approvals == [] && NoLinks(steps)
  {
    steps := [ClaimExtract(0, false), Do(0, EnterExtracting), Do(0, SaveLines), Do(0, FinishExtract),
              Do(0, EnqueueMatch), ClaimMatch(1)];
    var w1 := Apply(START, steps[0]);
    assert w1.execs == map[0 := ExtractClaimed(false)];
    var w2 := Apply(w1, steps[1]);
    assert w2.execs == map[0 := BackendAtWork(false)];
    var w3 := Apply(w2, steps[2]);
    var w4 := Apply(w3, steps[3]);
    assert w4.execs == map[0 := ExtractedWritten];
    var w5 := Apply(w4, steps[4]);
    assert w5.execs == map[];
    FollowOne(START, steps);
    FollowOne(w1, steps[1..]);
    FollowOne(w2, steps[2..]);
    FollowOne(w3, steps[3..]);
    FollowOne(w4, steps[4..]);
    FollowOne(w5, steps[5..]);
    assert steps[6..] == [];
  }

  lemma {:induction false} Matches(w: World, ev: Evidence) returns (steps: seq<Step>)
    requires w.execs == map[1 := MatchClaimed] && w.db.status == Extracted && w.db.matchRuns == [] && ev.total.Some?
    ensures var u := Run(w, steps);
            && u.execs == map[1 := FindingsSaved(0, |w.db.exceptions|)] && u.db.status == Matching
            && u.db.matchRuns == [ev] && u.db.approvals == w.db.approvals && NoLinks(steps)
  {
    steps := [Do(1, EnterMatching), Do(1, SaveRun(ev)), Do(1, SaveFindings)];
    var w1 := Apply(w, steps[0]);
    var w2 := Apply(w1, steps[1]);
    FollowOne(w, steps);
    FollowOne(w1, steps[1..]);
    FollowOne(w2, steps[2..]);
    assert steps[3..] == [];
  }

  lemma {:induction false} Routes(w: World, ev: Evidence, hash: TokenHash, recipient: string, expiresAt: Time)
    returns (steps: seq<Step>)
    requires w.execs.Keys == {1} && w.execs[1].FindingsSaved? && w.execs[1].run == 0
    requires w.db.status == Matching && w.db.matchRuns == [ev] && w.db.approvals == []
             && Decide(ev) == PendingApprovalBy(2)
    ensures NoLinks(steps) && FirstTokenOut(Run(w, steps), hash, recipient)
  {
    steps := [Do(1, ApplyFirst), Do(1, ApplySecond), Do(1, IssueToken(hash, recipient, expiresAt))];
    var w1 := Apply(w, steps[0]);
    var w2 := Apply(w1, steps[1]);
    FollowOne(w, steps);
    FollowOne(w1, steps[1..]);
    FollowOne(w2, steps[2..]);
    assert steps[3..] == [];
  }

  /** How many approvers the last match run asks for. */
  function Needed(t: Tables): nat {
    if t.matchRuns == [] then 0
    else
      var outcome := Decide(t.matchRuns[|t.matchRuns| - 1]);
      if outcome.PendingApprovalBy? then outcome.requiredApprovers else 0
  }

  /** One of two tokens is issued, and its notify job is next. */
  ghost predicate FirstTokenOut(w: World, hash: TokenHash, recipient: string) {
    && w.db.status == PendingApproval && |w.db.approvals| == 1 && Needed(w.db) == 2
    && w.db.approvals[0].tokenHash == hash && w.db.approvals[0].recipient == recipient
    && w.db.approvals[0].consumedAt.None? && w.db.approvals[0].decision.None?
    && w.execs.Keys == {1} && w.execs[1].Announcing? && w.execs[1].left == 1
  }

  /** From a received invoice to the first of two tokens, for all evidence that asks for two. */
  lemma {:induction false} FirstTokenIsReached(ev: Evidence, hash: TokenHash, recipient: string, expiresAt: Time)
    returns (steps: seq<Step>)
    requires Decide(ev) == PendingApprovalBy(2)
    ensures NoLinks(steps) && FirstTokenOut(Run(START, steps), hash, recipient)
  {
    var prefix := Extracts();
    var middle := Matches(Run(START, prefix), ev);
    RunJoins(START, prefix, middle);
    var suffix := Routes(Run(START, prefix + middle), ev, hash, recipient, expiresAt);
    RunJoins(START, prefix + middle, suffix);
    steps := prefix + middle + suffix;
  }

  /** A decision while one token is out, then the second token. */
  function RaceSteps(actor: Actor, v: Verdict, now: Time, hash: TokenHash, recipient: string): seq<Step> {
    [InApp(Some(actor), v, now, 0), Do(1, EnqueueNotify), Do(1, IssueToken(hash, recipient, now + 1))]
  }

  /** The notify job of the first token, and then the second token. */
  lemma {:induction false} SecondToken(w: World, hash: TokenHash, recipient: string, expiresAt: Time)
    requires |w.db.approvals| == 1 && hash != w.db.approvals[0].tokenHash
    requires w.execs.Keys == {1} && w.execs[1].Announcing? && w.execs[1].left == 1
    ensures var w1 := Apply(w, Do(1, EnqueueNotify)); var u := Apply(w1, Do(1, IssueToken(hash, recipient, expiresAt)));
            && u.db.status == w1.db.status == w.db.status && w1.db.approvals == w.db.approvals && AllIssued(u)
            && u.db.matchRuns == w.db.matchRuns
            && u.db.approvals == w.db.approvals + [NewApproval(hash, recipient, w.execs[1].exceptionId, expiresAt)]
  {
    var w1 := Apply(w, Do(1, EnqueueNotify));
    assert w1.execs.Keys == {1} && w1.execs[1] == Issuing(1, w.execs[1].exceptionId);
  }

  lemma {:induction false} OnlyRowDecides(t: Tables, actor: Actor, v: Verdict, now: Time)
    requires t.status == PendingApproval && |t.approvals| == 1 && OpenFor(t.approvals[0], Contacts(actor))
             && actor.mayDecide
    ensures var u := DecideTx(t, Some(actor), v, now, 0).0;
            && u.status == FinalStatus(v) && u.matchRuns == t.matchRuns && |u.approvals| == 1
            && u.approvals[0].tokenHash == t.approvals[0].tokenHash
            && u.approvals[0].decision == Some(v) && u.approvals[0].consumedAt.Some?
  {
    assert Mine(t.approvals, Contacts(actor), 0) == 0;
    ReceivedMeansOthersApproved(t.approvals, 0);
  }

  /** One of two rows decided as `v`, the other issued and open. */
  ghost predicate OneDecided(w: World, v: Verdict, recipient: string) {
    && AllIssued(w) && w.db.status == FinalStatus(v) && Needed(w.db) == 2 && |w.db.approvals| == 2
    && w.db.approvals[0].decision == Some(v) && w.db.approvals[0].consumedAt.Some?
    && w.db.approvals[1].recipient == recipient
    && w.db.approvals[1].consumedAt.None? && w.db.approvals[1].decision.None?
  }

  lemma {:induction false} RaceEnds(w: World, token: TokenHash, actor: Actor, v: Verdict, now: Time, hash: TokenHash,
                                    recipient: string)
    requires FirstTokenOut(w, token, actor.email) && hash != token && actor.mayDecide && actor.email != ""
    ensures var steps := RaceSteps(actor, v, now, hash, recipient);
            var w2 := Apply(Apply(w, steps[0]), steps[1]);
            Late(w2, steps[2]) && OneDecided(Apply(w2, steps[2]), v, recipient)
  {
    assert actor.email in Contacts(actor);
    OnlyRowDecides(w.db, actor, v, now);
    var w1 := Apply(w, InApp(Some(actor), v, now, 0));
    assert w1.execs == w.execs;
    SecondToken(w1, hash, recipient, now + 1);
  }

  lemma {:induction false} RaceIsRun(w: World, token: TokenHash, actor: Actor, v: Verdict, now: Time, hash: TokenHash,
                                     recipient: string)
    requires FirstTokenOut(w, token, actor.email) && hash != token && actor.mayDecide && actor.email != ""
    ensures var steps := RaceSteps(actor, v, now, hash, recipient);
            OneDecided(Run(w, steps), v, recipient) && Loosened(w, steps)
  {
    var steps := RaceSteps(actor, v, now, hash, recipient);
    RaceEnds(w, token, actor, v, now, hash, recipient);
    ThreeSteps(w, steps[0], steps[1], steps[2]);
  }

  lemma {:induction false} ThreeSteps(w: World, a: Step, b: Step, c: Step)
    ensures Run(w, [a, b, c]) == Apply(Apply(Apply(w, a), b), c)
    ensures Late(Apply(Apply(w, a), b), c) ==> Loosened(w, [a, b, c])
  {
    assert [a, b, c] == [a, b] + [c];
    TwoSteps(w, a, b);
    RunJoins(w, [a, b], [c]);
    OneStep(Apply(Apply(w, a), b), c);
    LooseJoins(w, [a, b], [c]);
    if Late(Apply(Apply(w, a), b), c) { assert Loosened(Apply(Apply(w, a), b), [c]); }
  }

  /** A decision came between the two tokens of a run without links. */
  ghost predicate Raced(steps: seq<Step>, v: Verdict, recipient: string) {
    NoLinks(steps) && Loosened(START, steps) && OneDecided(Run(START, steps), v, recipient)
  }

  lemma {:induction false} RaceIsReachable(ev: Evidence, first: TokenHash, second: TokenHash, actor: Actor,
          v: Verdict, recipient: string, now: Time)
    returns (steps: seq<Step>)
    requires Decide(ev) == PendingApprovalBy(2) && first != second && actor.mayDecide && actor.email != ""
    ensures Raced(steps, v, recipient)
  {
    var prefix := FirstTokenIsReached(ev, first, actor.email, now + 1);
    var race := RaceSteps(actor, v, now, second, recipient);
    RaceIsRun(Run(START, prefix), first, actor, v, now, second, recipient);
    RunJoins(START, prefix, race);
    LooseJoins(START, prefix, race);
    steps := prefix + race;
  }

  /** The race is reachable: for all evidence that asks for two approvers there is a run without
      links, with both tokens issued, whose invoice is APPROVED by one approver with the other
      undecided. */
  lemma {:induction false} DualControlRaceIsReachable(ev: Evidence, first: TokenHash, second: TokenHash, actor: Actor,
          other: string, now: Time)
    requires Decide(ev) == PendingApprovalBy(2) && first != second && actor.mayDecide && actor.email != ""
    ensures exists steps :: Raced(steps, Approve, other) && !Quorum(Run(START, steps).db)
                            && ApprovedCount(Run(START, steps).db.approvals) == 1
  {
    var steps := RaceIsReachable(ev, first, second, actor, Approve, other, now);
    QuorumExactly(steps);
    var rows := Run(START, steps).db.approvals;
    assert ApprovedCount(rows) == ApprovedCount(rows[..1]) && rows[..1][..0] == [];
  }

  /** After a veto a late approver may still answer, and the rows agree with the status again:
      a late token alone does not break the quorum of a rejected invoice. */
  lemma {:induction false} LateAnswerRestoresTheQuorum(ev: Evidence, first: TokenHash, second: TokenHash,
          actor: Actor, other: Actor, now: Time)
    requires Decide(ev) == PendingApprovalBy(2) && first != second && actor.mayDecide && actor.email != ""
    requires other.mayDecide && other.email != ""
    ensures exists steps :: NoLinks(steps) && Loosened(START, steps) && Quorum(Run(START, steps).db)
  {
    var race := RaceIsReachable(ev, first, second, actor, Reject, other.email, now);
    var answer := InApp(Some(other), Approve, now, 1);
    OneStep(Run(START, race), answer);
    RunJoins(START, race, [answer]);
    LooseJoins(START, race, [answer]);
    QuorumExactly(race + [answer]);
  }
}
