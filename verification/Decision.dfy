/** The approval-routing matrix (packages/core/core/decision.py) and the status
    writes `_apply_decision` makes from its answer. */
module Decision {
  import opened Wrappers
  import opened InvoiceStatus

  datatype MatchResult = Clean | Exceptions | Blocked
  datatype Severity = Info | Warn | Block

  datatype Policy = Policy(minFieldConfidence: real, autoApproveBelow: real, dualApprovalAbove: real)

  /** Everything decide() reads: the match outcome, the extraction confidence,
      the invoice total and the active policy. */
  datatype Evidence = Evidence(
    result: MatchResult, findings: seq<Severity>, confidence: Option<real>,
    total: Option<real>, policy: Policy)

  datatype Outcome = AutoPost | PendingApprovalBy(requiredApprovers: nat) | NeedsCheck | MatchingError

  function RequiredApprovers(total: real, policy: Policy): nat {
    if total > policy.dualApprovalAbove then 2 else 1
  }

  predicate Uncertain(ev: Evidence) {
    ev.confidence.None? || ev.confidence.value < ev.policy.minFieldConfidence
  }

  function Decide(ev: Evidence): Outcome {
    if ev.total.None? then MatchingError
    else if Uncertain(ev) then NeedsCheck
    else if ev.result == Clean && ev.total.value < ev.policy.autoApproveBelow then AutoPost
    else PendingApprovalBy(RequiredApprovers(ev.total.value, ev.policy))
  }

  /** The status `_apply_decision` passes through before the final one. */
  function Intermediate(result: MatchResult): Status {
    if result == Clean then MatchedClean else ExceptionsRaised
  }

  /** The statuses `_apply_decision` writes after MATCHING, in order. */
  function Route(ev: Evidence): seq<Status> {
    match Decide(ev)
    case MatchingError => []
    case NeedsCheck => [NeedsVerification]
    case AutoPost => [Intermediate(ev.result), AutoPosted]
    case PendingApprovalBy(_) => [Intermediate(ev.result), PendingApproval]
  }

  ghost predicate LegalPath(from: Status, path: seq<Status>)
    decreases |path|
  {
    path != [] ==> Allowed(from, path[0]) && LegalPath(path[0], path[1..])
  }

  /** What it takes for an invoice to be posted with no human in the loop. */
  ghost predicate SafeToAutoPost(ev: Evidence) {
    && ev.result == Clean
    && ev.total.Some? && ev.total.value < ev.policy.autoApproveBelow
    && ev.confidence.Some? && ev.confidence.value >= ev.policy.minFieldConfidence
  }

  /** Every route is legal from MATCHING and ends where the outcome says. It reaches AUTO_POSTED
      exactly for evidence that is safe to auto-post, and goes to a human's verification exactly
      for an uncertain reading, whatever the match result. */
  lemma {:induction false} RoutesAreLegal(ev: Evidence)
    ensures LegalPath(Matching, Route(ev))
    ensures AutoPosted in Route(ev) <==> SafeToAutoPost(ev)
    ensures Decide(ev) == AutoPost <==> SafeToAutoPost(ev)
    ensures Route(ev) == [NeedsVerification] <==> ev.total.Some? && Uncertain(ev)
    ensures PendingApproval in Route(ev) <==> Decide(ev).PendingApprovalBy?
  {
    var p := Route(ev);
    if |p| == 2 {
      assert p[1..][1..] == [];
    } else if |p| == 1 {
      assert p[1..] == [];
    }
  }
}
