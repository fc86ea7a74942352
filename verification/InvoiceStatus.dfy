/** The invoice status machine (packages/core/core/state_machine.py). */
module InvoiceStatus {

  datatype Status =
    | Received | Extracting | ExtractionFailed | Extracted | Matching | MatchedClean
    | NeedsVerification | ExceptionsRaised | AutoPosted | PendingApproval
    | Approved | Rejected | Posted

  function AllowedNext(from: Status): set<Status> {
    match from
    case Received => {Extracting}
    case Extracting => {Extracted, ExtractionFailed}
    case Extracted => {Matching}
    case Matching => {MatchedClean, NeedsVerification, ExceptionsRaised}
    case MatchedClean => {AutoPosted, PendingApproval}
    case NeedsVerification => {Matching}
    case ExceptionsRaised => {PendingApproval}
    case PendingApproval => {Approved, Rejected}
    case Approved => {Posted}
    case AutoPosted | Posted | Rejected | ExtractionFailed => {}
  }

  /** validate_transition returns normally; otherwise it raises InvalidStateTransition. */
  predicate Allowed(from: Status, to: Status) {
    to in AllowedNext(from)
  }

  /** Statuses a worker handler holds an invoice in between two of its own commits. */
  predicate InTransit(s: Status) {
    s in {Extracting, Matching, MatchedClean, ExceptionsRaised}
  }
}
