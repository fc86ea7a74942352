# Invoice workflow, evaluation harness and their algorithms, modelled and proved

This project models the parts of the repository where correctness is hardest to see from one
function, and proves what they keep, for every input and every run.

* **The invoice workflow.** The rows of one invoice (status, audit log, lines, match runs,
  exceptions, approval requests, jobs) and every transaction that writes them: the extract and
  match handlers commit by commit, re-runs, in-app decisions, link redemptions, exception
  resolutions. Any number of handler executions may be in flight, stall, be reclaimed or die
  between two commits. `Workflow.dfy` holds the rows and the steps, `WorkflowSafety.dfy` what every
  interleaving keeps, `WorkflowRuns.dfy` what whole runs do, `ApprovalQuorum.dfy` when the status
  is the verdict of the approvers, `DualControl.dfy` when the approvers are as many as the policy
  asks for, `TokenNotices.dfy` which tokens get their notify job, `Stranded.dfy` which invoices
  nothing can move again, `EntryRaces.dfy` and `RaceRuns.dfy` the entries whose read takes no lock,
  and `InvoiceRows.dfy` the same transactions as methods of a class that updates the rows, each
  proved equal to its step.
* **The job queue and notification delivery.** `JobQueue.dfy` models claim, complete, fail, reap
  and the poll loop's one turn; `Notify.dfy` runs one notify job and its delivery row together,
  with a crash or an unexpected exception possible at every point.
* **The evaluation harness.** `Checkpoint.dfy` and `EvalRunner.dfy` (a killed run resumes from an
  append-only file), `LineItems.dfy` and `Descriptions.dfy` (greedy line matching by normalized
  description), `Metrics.dfy`, `Evaluation.dfy`, `Statistics.dfy` and `EvalReport.dfy` (accumulators,
  rates, percentiles, calibration buckets, the report).
* **Self-contained algorithms.** `TokenBucket.dfy` and `RateLimiter.dfy`, `Columns.dfy`,
  `BoldSpans.dfy`, `Reading.dfy`, `Telegram.dfy` and `EmailHtml.dfy`, `Events.dfy`, `Money.dfy`.

`Wrappers.dfy`, `Seqs.dfy` and `Sorting.dfy` are shared helpers. `dafny verify dfyconfig.toml`
checks the whole project. Every lemma carries `{:induction false}`, so each proof is the one written in its
body.

## How the model reads the code

One database transaction is one step. The runs of `Workflow.dfy` take the entry into EXTRACTING or
MATCHING as one step too; by `RunsInTimeAreAtomic` what is proved of them holds of every run whose
entering writes find the status that was read. A step whose caller is not at the matching point, or whose
code raises, changes nothing (what the worker may still commit of a failed one is under Left out). Ids are positions in sequences that only grow. What the code obtains
from outside (the match engine's result, OCR and model output, the clock, back-off delays, whether
a send succeeds) is a parameter, so the theorems hold for every value of it. Floating-point
numbers are modelled as reals. Hashes are taken to be injective.

Some results are about where the code departs from what its comments or its state machine
suggest. The code is modelled as it is, and each departure has a lemma:

* `rerun_match` writes MATCHING itself, and the job it enqueues cannot enter MATCHING from
  MATCHING: the invoice stays there for good (`RerunStrandsTheInvoice`).
* An extraction that fails before its job's last attempt leaves the invoice in EXTRACTING for good;
  neither the retry nor EXTRACTION_FAILED can be reached (`FailedAttemptStrandsTheInvoice`).
  `MovesOnExactlyWhileHeld` gives the exact condition for both.
* The comment on `_settle_invoice` promises that it runs only once the required number of approvers
  is met, but the in-app quorum is the number of approval rows issued so far. An approved invoice has
  as many approvals as its match run asked for exactly when no token came after the settlement, no
  link settled while another row was open, and as many rows were issued as asked for
  (`DualControlExactly`, for every run). Each can fail: a decision can come between two tokens
  (`DualControlRaceIsReachable`), a link does not wait (`OneLinkSettles`), and if the handler dies
  after the first token, or the tenant has one approver, that one settles alone, with status and
  rows in agreement (`LostTokenSettlesAlone`).
* Over every run, links included, `QuorumExactly` says when the status is the verdict of all rows:
  no token came after the settlement and no link settled while another row was open, or the
  invoice was rejected and every row left open has been answered since (which can happen:
  `LateAnswerRestoresTheQuorum`). An approval that left a row open is never made good
  (`LooseApprovalIsForGood`), and a link settles for all exactly when no other row is open
  (`LinkSettlesForAllExactly`).
* A pending invoice with no open row and no handler left to issue a token can never be settled
  (`SettledExactlyWhileSomeoneIsAsked`), and an extract handler that dies between EXTRACTED and its
  enqueue leaves the invoice without a match job for good (`MatchJobExactlyWhileExtracting`).
* The entries into EXTRACTING and MATCHING read the status without a lock and write over whatever it
  is by then. A run keeps the audit path, and the workflow's invariant, if and only if each such
  write finds the status that was read (`MutexExactlyInTime`). Otherwise two handlers can save lines
  (`LinesCanBeSavedTwice`), and whatever a run has settled, a stale read can put the invoice back to
  MATCHING (`EverySettlementCanBeReopened`). `RaceMovesOnExactly` says which invoices between two
  commits can still move when the entries take two steps.
* A handler that dies between a token and its notify job leaves the token unannounced for good
  (`AnnouncedExactlyWhileInFlight`).
* A single link settles a pending invoice whatever the other approval rows say (`OneLinkSettles`),
  and closes only its own exception (`LinkSettlementClosesItsOwnException`). An in-app approval
  creates no post job; a post job has no handler and can only die (`PostingIsEarned`,
  `EveryRunIsAccounted`).
* The delivery key leaves the invoice out, so a notice can be sent if and only if none that differs
  from it at most in the invoice was settled before (`AnnouncedExactly`): an approver's second
  invoice without an exception is announced only while the first one's delivery is not settled
  (`SecondInvoiceIsNeverAnnounced`).
* An exception the notify handler does not name leaves a dead job with a pending delivery, whatever
  the job's max_attempts (`UnnamedFailureLosesTheDelivery`); without one the two machines agree
  (`NamedOutcomesSettle`).
* `complete` and `fail` check neither status nor owner; `AccountsSurviveExactly` says exactly which
  calls keep a job's accounts, `AttemptsAreClaimsExactly` by how much a run of such calls puts them
  out, and `LateFailureIsChargedTwice` what a stalled worker does to them.
* The set of escaped MarkdownV2 characters has no backslash; the rendering reads back exactly for
  texts without one (`ReadsBackExactly`).
* A printed amount reads back exactly unless the currency code carries a point, a non-zero digit,
  or a leading minus sign (`RoundTripsExactly`).
* The token bucket's window bound holds for all calls if and only if the clock readings never go
  back (`BoundedExactlyByForwardClocks`).
* Pairs are each document's own if and only if documents that share an id are read alike
  (`PairsAreOwnExactly`).

## Model

| member | source | states |
|---|---|---|
| Decision.RoutesAreLegal | packages/core/core/decision.py:81-148 | for every match result, confidence, total and policy the status writes that follow are a legal path from MATCHING; they reach AUTO_POSTED exactly for a clean, confident match below the auto-approve limit, and NEEDS_VERIFICATION alone exactly for a missing or low confidence, whatever the result |
| WorkflowSafety.WriteKeepsChainExactly | apps/worker/worker/match_handler.py:81-111 | an unread status write keeps the audit path unbroken and legal if and only if the status it names is the row's and the move is allowed |
| WorkflowSafety.HeldIsCurrent | apps/worker/worker/match_handler.py:379-428 | an execution holds a from-status exactly at its holding points, and then it is the row's current, in-transit status |
| WorkflowSafety.StepKeepsInv | apps/worker/worker/match_handler.py:509-692 | every commit of every writer keeps the workflow invariant: unbroken legal audit path, lines saved once, evidence behind outcomes, unique tokens, at most one holder |
| WorkflowSafety.DecisionKeepsInv | apps/api/api/match_view.py:263-386 | anything shaped like a decision keeps it, handlers in flight included |
| WorkflowSafety.StatusIsAMutex | apps/worker/worker/extract_handler.py:46-76 | in every interleaving each in-flight handler's constant from-status is the row's actual status, at most one execution holds one, and the audit rows form an unbroken legal path from RECEIVED to the current status |
| WorkflowSafety.LinesAreSavedOnce | apps/worker/worker/extract_handler.py:114-261 | at most one extract execution ever saves lines, and exactly one has once the invoice is past extraction |
| WorkflowSafety.PostingIsEarned | apps/worker/worker/match_handler.py:388-428 | AUTO_POSTED only on a clean, confident match below the limit; a post job exists exactly for an invoice approved through a link; an invoice at approval was not safe to auto-post |
| WorkflowSafety.OnlyVerificationLoops | packages/core/core/state_machine.py:14-52 | no status but MATCHING and NEEDS_VERIFICATION is ever written twice, and an invoice is approved or rejected at most once |
| WorkflowRuns.HistoryIsNeverRewritten | apps/api/api/exceptions_view.py:149-196 | over every continuation of every run a consumed approval, a closed exception, an audit row, a match run and a final status read the same |
| WorkflowRuns.MovesOnExactlyWhileHeld | packages/core/core/state_machine.py:20-52 | an invoice in EXTRACTING, MATCHING, MATCHED_CLEAN or EXCEPTIONS_RAISED can ever change status if and only if the execution that put it there is still in flight |
| WorkflowRuns.RerunStrandsTheInvoice | apps/api/api/verification.py:147-198 | after rerun_match the invoice is in MATCHING in every continuation |
| WorkflowRuns.FailedAttemptStrandsTheInvoice | apps/worker/worker/extract_handler.py:218-261 | after a failed extraction that was not the last attempt the invoice is in EXTRACTING in every continuation |
| ApprovalQuorum.ApprovalSettlesExactly | apps/api/api/match_view.py:263-386 | an in-app approval settles a pending invoice if and only if every other approval row issued so far is approved, and then with as many approvals as rows; a veto always does |
| ApprovalQuorum.DecisionSignsOnlyOwnRow | apps/api/api/match_view.py:263-386 | in whatever order the rows come back, a decision signs only an open row addressed to its actor; an approval touches no other row and a veto leaves none open |
| ApprovalQuorum.QuorumExactly | apps/api/api/match_view.py:263-386 | over every run, links included, from the first token on: the status is the verdict of all rows (approved by all, or rejected by one and none open) if and only if no token was issued after the settlement and no link settled while another row was open, or the invoice was rejected and no row is open |
| ApprovalQuorum.LinkSettlesForAllExactly | apps/api/api/approvals.py:170-378 | after any run, a settlement by link is the verdict of all rows if and only if no other row is open, that is if and only if every other row is approved |
| ApprovalQuorum.LooseApprovalIsForGood | apps/api/api/match_view.py:311-386 | an invoice approved with a token issued later, or by a link with another row open, is never again approved by all its rows, in any continuation |
| ApprovalQuorum.InAppDecisionsNeedEveryRow | apps/api/api/match_view.py:263-386 | from a pending invoice with no token left to issue, some row open and none rejected, over every run without links: no row is added, APPROVED if and only if all rows are approved, REJECTED if and only if one is, and then none is open |
| ApprovalQuorum.DualControlRaceIsReachable | apps/worker/worker/match_handler.py:430-501 | for all evidence that asks for two approvers there is a run from a fresh invoice, without links and with both tokens issued, that is APPROVED with one approval and the second row undecided |
| ApprovalQuorum.LateAnswerRestoresTheQuorum | apps/api/api/match_view.py:320-386 | after a veto and a late token, the late approver's own answer makes status and rows agree again |
| DualControl.DualControlExactly | apps/api/api/match_view.py:214-261 | for every run that ends APPROVED: at least as many approvals as the last match run asked for if and only if no token came after the settlement, no link settled while another row was open, and as many rows were issued as asked for; never more rows than that |
| DualControl.PendingUntilIssuedIsDecidedByAll | apps/worker/worker/match_handler.py:430-501 | a run from a fresh invoice that is still pending with rows when its last token is issued is decided by all those rows in every continuation without links, and APPROVED by as many approvers as asked for if and only if there are that many rows |
| DualControl.LostTokenSettlesAlone | apps/worker/worker/match_handler.py:340-501 | for all evidence that asks for two approvers there is a run, without links and with nothing late, that is APPROVED by the one approver whose token was issued before the handler died |
| Stranded.SettledExactlyWhileSomeoneIsAsked | apps/worker/worker/match_handler.py:340-501 | an invoice pending approval can ever be settled if and only if one of its rows is open or a handler still has a token to issue |
| Stranded.MatchJobExactlyWhileExtracting | apps/worker/worker/extract_handler.py:213-261 | an invoice without its first match job can ever get it if and only if it is still RECEIVED or an extract handler past its entry is in flight |
| TokenNotices.OnlyTheLastTokenIsUnannounced | apps/worker/worker/match_handler.py:450-501 | in every run the notify jobs are those of the tokens, in order, for all or all but the last, and nobody issues a token while the last has none |
| TokenNotices.AnnouncedExactlyWhileInFlight | apps/worker/worker/match_handler.py:450-501 | a token without its notify job gets one in some continuation if and only if the handler that issued it is still in flight |
| EntryRaces.RunsInTimeAreAtomic | apps/worker/worker/extract_handler.py:213-229 | a run with separate unlocked reads and writes, each write finding what was read, is a run with entries in one step |
| EntryRaces.MutexExactlyInTime | apps/worker/worker/match_handler.py:509-522 | over every such run the audit path is unbroken, and the whole workflow invariant holds, if and only if each entering write finds the status its reader saw |
| EntryRaces.StaleReadReopensTheInvoice | apps/worker/worker/match_handler.py:509-522 | a match handler that read EXTRACTED puts the invoice back to MATCHING whatever the others did in between |
| EntryRaces.TwoReadersSaveLinesTwice | apps/worker/worker/extract_handler.py:213-261 | from any state in which two extract handlers both read RECEIVED, both save lines |
| RaceRuns.AtomicRunsAreRaces | apps/worker/worker/extract_handler.py:213-229 | every run with entries in one step is a run of separate reads and writes, each write finding what was read |
| RaceRuns.EverySettlementCanBeReopened | apps/worker/worker/match_handler.py:509-522 | for every run past extraction, whatever it has settled, there is a run of separate reads and writes, in time so far and with the same rows, whose next write is legal for its reader and puts the invoice back to MATCHING |
| RaceRuns.ApprovedInvoiceIsReopened | apps/worker/worker/match_handler.py:509-522 | among them, for all evidence that asks for two approvers, a run from a fresh invoice that is APPROVED just before that write |
| RaceRuns.LinesCanBeSavedTwice | apps/worker/worker/extract_handler.py:213-261 | a run from a fresh invoice saves its lines twice |
| RaceRuns.RaceMovesOnExactly | apps/api/api/verification.py:147-198 | after every run of separate reads and writes, in time or not, an invoice in EXTRACTING, MATCHING, MATCHED_CLEAN or EXCEPTIONS_RAISED can ever change status if and only if an execution holds it or a reader waits whose write goes through, other than a re-run onto MATCHING |
| WorkflowRuns.OneLinkSettles | apps/api/api/approvals.py:170-378 | a redemption succeeds if and only if the invoice is pending and the token's row is open and unexpired; it then settles the invoice by itself, and otherwise changes nothing |
| WorkflowRuns.InAppSettlementClosesEveryException | apps/api/api/match_view.py:214-260 | settling in-app leaves no exception open and no earlier resolution overwritten |
| WorkflowRuns.LinkSettlementClosesItsOwnException | apps/api/api/approvals.py:228-349 | settling by a link closes exactly the link's own exception, or every open one when it has none |
| InvoiceRows.InvoiceRows.CountApprovals | apps/api/api/match_view.py:263-386 | the loop's tally is one plus the approvals among the other rows |
| InvoiceRows.InvoiceRows.CloseAllRequests | apps/api/api/match_view.py:263-386 | a veto consumes every open row as rejected, and names its actor only on the actor's own |
| InvoiceRows.InvoiceRows.DecideInvoice | apps/api/api/match_view.py:263-386 | for every order in which the query may return the rows, the transaction's rows and reply are those of the workflow step that takes the first open row in that order, every refusal included |
| InvoiceRows.InvoiceRows.RedeemApprovalToken | apps/api/api/approvals.py:170-378 | likewise for a link redemption |
| InvoiceRows.InvoiceRows.HandleExtract | apps/worker/worker/extract_handler.py:218-261 | run alone, the handler's effect is that of its commits as workflow steps, and it raises unless the entry was legal and the backend succeeded |
| InvoiceRows.InvoiceRows.ApplyDecision | apps/worker/worker/match_handler.py:379-428 | makes exactly the status writes of the decision, all of them legal |
| InvoiceRows.InvoiceRows.IssueTokens | apps/worker/worker/match_handler.py:430-501 | one approval row and one notify job per contact up to the required number, stopping and raising exactly at a token already in use |
| InvoiceRows.InvoiceRows.HandleMatch | apps/worker/worker/match_handler.py:509-692 | run alone, the handler's effect is that of its commits as workflow steps, tokens and notify jobs included, and it raises exactly when the entry is illegal, the context is missing, the invoice has no total, or a token to be issued is already in use |
| InvoiceRows.IssuedIsRun | apps/worker/worker/match_handler.py:430-501 | the loop over the approvers is the run of its commits |
| InvoiceRows.MatchUpToTokens | apps/worker/worker/match_handler.py:509-692 | the steps of a match leave the rows the routing matrix asks for, and tokens to issue exactly when it asks for approval |
| JobQueue.AccountsSurviveExactly | apps/worker/worker/db.py:143-225 | a job's accounts survive an operation on it if and only if claims take queued jobs and complete, fail and reap take running or done ones |
| JobQueue.AttemptsAreClaimsExactly | apps/worker/worker/db.py:119-225 | whoever calls complete, fail and the reaper: attempts, plus a claim still held, are the claims plus the calls that found the job neither running nor done; they equal the claims if and only if there was no such call |
| JobQueue.EveryRunIsAccounted | apps/worker/worker/db.py:68-225 | in every run, whatever max_attempts is: claims = attempts + 1 if running or done; claims <= max(1, max_attempts) + reaps; dead if and only if one dead letter; running implies locked and queued unlocked; no post job is done |
| JobQueue.ClaimsAreSeparated | apps/worker/worker/db.py:119-225 | between two claims of one job there is a fail or a reap of it |
| JobQueue.OneKeyNamesOneJobForever | apps/worker/worker/db.py:68-117 | enqueueing an existing key, at any later time and with any arguments, changes nothing and finds the same job |
| JobQueue.RunContinues | apps/worker/worker/db.py:119-225 | over every run jobs keep id, key and type, done and dead are final, attempts and history only grow |
| JobQueue.LateFailureIsChargedTwice | apps/worker/worker/db.py:151-207 | a reap followed by the stalled worker's own fail breaks the accounts |
| JobQueue.JobQueue.Enqueue | apps/worker/worker/db.py:68-117 | returns the one job with the key, new only if there was none |
| JobQueue.JobQueue.ClaimNext | apps/worker/worker/db.py:119-141 | locks a due job that no due job precedes in creation order; none exactly when nothing is due |
| JobQueue.JobQueue.Fail | apps/worker/worker/db.py:151-207 | reschedules and unlocks, or kills and files one dead letter, as the attempts decide; no effect on an unknown job |
| JobQueue.JobQueue.ReapStaleLocks | apps/worker/worker/db.py:209-225 | gives back exactly the running jobs locked before the cut-off, once each, and counts them |
| JobQueue.JobQueue.RunOneJob | apps/worker/worker/main.py:101-142 | one permitted claim, then what the handler enqueues, then exactly one complete or fail of the same job; a tenant that cannot be set leaves the job running and raises |
| Notify.EverySendIsAccounted | apps/worker/worker/notify_handler.py:148-231 | in every run successful sends = lost marks + (delivery sent or about to be marked); send calls and attempts are at most max(1, max_attempts) + reaps |
| Notify.SentOnceExactlyWithoutLostMarks | apps/worker/worker/notify_handler.py:181-231 | a sent delivery was sent once if and only if no crash or exception fell between a successful send and its mark |
| Notify.JobAndDeliveryAgree | apps/worker/worker/main.py:124-142 | a done job's delivery is sent or dead; a dead job's is when its last attempt marked it, and is pending when that attempt broke after reading it |
| Notify.LastAttemptIsTheSameForBoth | apps/worker/worker/notify_handler.py:182-205 | the handler's is_last_attempt is the branch fail then takes: a retryable failure kills delivery and job together or neither |
| Notify.SettledForever | apps/worker/worker/notify_handler.py:170-179 | sent and dead are absorbing: the row never changes and the notifier is never called again |
| Notify.KeysIgnoreTheInvoice | apps/worker/worker/notify_handler.py:70-73 | two notices share a delivery if and only if they agree on everything but the invoice |
| Notify.CallsExactlyUnlessSettled | apps/worker/worker/notify_handler.py:170-181 | a fresh job calls the notifier in some run if and only if its delivery is not settled |
| Notify.AnnouncedExactly | apps/worker/worker/notify_handler.py:70-181 | a notice can be sent if and only if none that differs from it at most in the invoice was settled before |
| Notify.SecondInvoiceIsNeverAnnounced | apps/worker/worker/notify_handler.py:70-181 | a job for another invoice with the same exception, recipient and channel can send if and only if the first one's delivery is not settled |
| Notify.NamedOutcomesSettle | apps/worker/worker/notify_handler.py:181-231 | in every run whose sends end in the outcomes the handler names and where nothing else raises, a done or dead job's delivery is sent or dead; if no process dies either, at most one send succeeds |
| Notify.UnnamedFailureLosesTheDelivery | apps/worker/worker/notify_handler.py:181-225 | for every fresh job, whatever its max_attempts, there is a run that ends with the job dead and its delivery pending |
| Notify.NotificationDeliveries.GetOrCreate | apps/worker/worker/notify_handler.py:76-109 | the key's one row, created pending only if absent |
| Notify.NotificationDeliveries.HandleNotify | apps/worker/worker/notify_handler.py:148-231 | the handler's effect on its row, whether it called the notifier and whether it raised, are those of the machine's steps; other rows stay |
| Checkpoint.LastIsLast | packages/evals/evals/checkpoint.py:53-86 | the entry that counts for a document is a line of the file with no later line about it |
| Checkpoint.CheckpointFile.Append | packages/evals/evals/checkpoint.py:34-50 | adds one line at the end and touches nothing before it |
| Checkpoint.CheckpointFile.Load | packages/evals/evals/checkpoint.py:53-86 | succeeds if and only if every line is blank or a record of this dataset and backend, with each document's last entry; otherwise reports the first bad line |
| EvalRunner.Run | packages/evals/evals/runner.py:68-195 | for every completion order and kill point: appends one record per finished document, finishes only pending ones, none twice, and all of them unless killed; reports what memory holds |
| EvalRunner.RunPending | packages/evals/evals/runner.py:112-160 | the pool's loop, with any future completing next |
| EvalRunner.CollectPairs | packages/evals/evals/runner.py:162-166 | the pairs are in dataset order whatever the completion order |
| EvalRunner.LoadedAgrees | packages/evals/evals/runner.py:86-110 | results and failures rebuilt from the file are its latest successes and its latest errors, one each |
| EvalRunner.CompletionAgrees | packages/evals/evals/runner.py:116-160 | a completion changes memory and file alike |
| EvalRunner.RunsAreSessions | packages/evals/evals/runner.py:108-114 | what a run finishes are distinct requested documents not yet successful on file, all of them if it is not killed |
| EvalRunner.EachDocumentExactlyOnce | packages/evals/evals/runner.py:98-166 | a finished run has each requested document either with a result and no failure, or attempted and failed with exactly one failure |
| EvalRunner.SuccessIsFinal | packages/evals/evals/runner.py:89-108 | over any number of killed lives and any extractor answers a recorded success is never attempted again and never changes |
| EvalRunner.ResumeIsTransparent | packages/evals/evals/runner.py:68-195 | with a deterministic extractor and distinct ids, any campaign of kills in any completion order ends with the pairs of one uninterrupted run |
| EvalRunner.FailuresOutsideTheRequestStay | packages/evals/evals/runner.py:102-106 | failures on file for documents outside the request stay in the report |
| EvalRunner.PairsAreOwnExactly | packages/evals/evals/runner.py:112-166 | ids shared or not, a run from nothing pairs every document with its own extraction, in any completion order, if and only if documents that share an id are read alike |
| Descriptions.SameFormSameTokens | packages/extractors/extractors/normalize.py:127-138 | two descriptions normalize alike if and only if they have the same expanded tokens, each as often |
| Descriptions.WordOrderIsForgotten | packages/extractors/extractors/normalize.py:127-138 | reordering a description's words leaves its normal form |
| Descriptions.NormalFormIsNormal | packages/extractors/extractors/normalize.py:43-138 | normalizing is idempotent: no expansion is itself an abbreviation, and splitting undoes joining |
| LineItems.MatchLineItems | packages/evals/evals/metrics.py:166-201 | pairs exactly the n-th ground-truth line of a key with the n-th predicted line of that key, and as many lines as both sides have in common |
| LineItems.GreedyIsOptimal | packages/evals/evals/metrics.py:166-201 | the greedy matching is one-to-one and no one-to-one matching of equal keys is larger |
| LineItems.CountForgetsOrder | packages/evals/evals/metrics.py:166-201 | its size does not depend on the order of either list |
| LineItems.MatchesForgetWordOrder | packages/evals/evals/metrics.py:191-201 | nor do the matches on the order of the words of any description, on either side |
| Metrics.FieldAccumulator.Accumulate | packages/evals/evals/metrics.py:338-383 | counts, errors and the calibration pair of one observation, on every early return |
| Metrics.CountsAreOrdered | packages/evals/evals/metrics.py:338-383 | exact <= both present <= either side, and errors and confidences only where both are |
| Metrics.RatesAreRates | packages/evals/evals/metrics.py:386-403 | over any observations every rate is in [0, 1], F1 is between precision and recall and missing exactly when nothing was predicted, expected or found, exact-match rate <= recall |
| Evaluation.AccumulateAll | packages/evals/evals/metrics.py:204-265 | accumulators, line totals, latencies, cost and calibration pairs are the tallies of every field's column over all documents |
| EvalReport.ComputeMetrics | packages/evals/evals/metrics.py:204-295 | the whole report: each field's rates and means, the calibration buckets, the line rates, the mean latency, its percentiles and the cost are those of all documents |
| Evaluation.CountHeaderMismatches | packages/evals/evals/metrics.py:314-335 | the header fields present in the ground truth that do not match exactly |
| Evaluation.MismatchesAreTheGaps | packages/evals/evals/metrics.py:314-383 | that count summed over documents equals (present - exact) summed over the accumulators of the header fields |
| Evaluation.LineRatesAreRates | packages/evals/evals/metrics.py:267-278 | line precision and recall are in [0, 1] and F1 is between them |
| Evaluation.EveryConfidenceIsCalibrated | packages/evals/evals/metrics.py:352-373 | calibration pairs = confidences kept, over all fields: none dropped on the failure path, none counted twice |
| Statistics.PercentileForgetsOrder | packages/evals/evals/metrics.py:298-311 | a percentile depends on the values only |
| Statistics.PercentileIsMonotone | packages/evals/evals/metrics.py:298-311 | it grows with p across interpolation cells |
| Statistics.PercentileIsBetween | packages/evals/evals/metrics.py:298-311 | it runs from the least value at 0 to the greatest at 1 |
| Statistics.BucketCalibration | packages/evals/evals/metrics.py:406-432 | ten buckets, each with the count, mean and accuracy of its members |
| Statistics.OneBucketEach | packages/evals/evals/metrics.py:411-415 | a confidence is in exactly one bucket if it is in [0, 1], and in none otherwise |
| Statistics.BucketsPartition | packages/evals/evals/metrics.py:406-432 | bucket counts and correct-counts sum to those of the confidences in [0, 1] |
| Statistics.BucketMeansAreInBounds | packages/evals/evals/metrics.py:416-421 | a bucket's mean confidence lies within its edges and its accuracy is a rate |
| TokenBucket.TakeIsSane | packages/extractors/extractors/ratelimit.py:42-54 | tokens stay between zero and capacity, and a take spends no more than was there and what time added |
| TokenBucket.GrantsAreFunded | packages/extractors/extractors/ratelimit.py:42-54 | for any clock, grants plus what is left are at most a full bucket plus the clock's upward movement at the rate |
| TokenBucket.WindowBound | packages/extractors/extractors/ratelimit.py:42-54 | with a clock that never goes back, the calls of any window are granted at most capacity + rate * (t2 - t1) |
| TokenBucket.BoundedExactlyByForwardClocks | packages/extractors/extractors/ratelimit.py:42-54 | from a full bucket, every window of every run of calls at given clock readings keeps the bound if and only if the readings never go back |
| TokenBucket.WaitingIsOneTake | packages/extractors/extractors/ratelimit.py:56-63 | a failed take followed by a later one is that later take alone |
| TokenBucket.TokenBucket.RefillAndTake | packages/extractors/extractors/ratelimit.py:42-54 | the fields after the call are those of one take at the time read, and the deficit is what is missing |
| TokenBucket.TokenBucket.Acquire | packages/extractors/extractors/ratelimit.py:56-63 | refuses only more than a full bucket; otherwise ends within two attempts and equals one take at the time it returns |
| RateLimiter.LimiterBucket.TryAcquire | apps/api/api/ratelimit.py:29-37 | one take of one token, answered as a lone bucket fed these calls would |
| RateLimiter.RateLimiter.Check | apps/api/api/ratelimit.py:51-57 | the answer of a lone bucket fed only this caller's calls, whatever the others do; no other bucket changes |
| RateLimiter.CreationTimeDoesNotMatter | apps/api/api/ratelimit.py:23-27 | a bucket created at an earlier clock reading answers its first call the same |
| RateLimiter.OthersDoNotCount | apps/api/api/ratelimit.py:51-57 | requests of other callers leave a caller's calls as they are |
| RateLimiter.WindowPerCaller | apps/api/api/ratelimit.py:29-57 | for every interleaving of callers one caller's grants in a window are at most capacity + rate * its span there |
| Columns.ClusterColumns | packages/extractors/extractors/tesseract.py:355-367 | the boundaries are the least left edge of each cluster |
| Columns.BoundariesAreApart | packages/extractors/extractors/tesseract.py:355-377 | boundaries are left edges in increasing order, more than the threshold apart, and every left edge is assigned the last boundary not right of it |
| Columns.AssignColumn | packages/extractors/extractors/tesseract.py:370-377 | the early exit finds the last boundary not right of the word, slack included |
| Columns.EdgesKeepTheirColumn | packages/extractors/extractors/tesseract.py:370-377 | the slack never moves a clustered edge out of its cluster |
| Columns.ColumnsAreComponents | packages/extractors/extractors/tesseract.py:355-377 | two words are assigned one column if and only if a chain of left edges within the threshold connects theirs |
| Columns.CellsOfRow | packages/extractors/extractors/tesseract.py:405-409 | each cell holds the row's words of its column in the row's order, and no cell is empty or out of range |
| Columns.BuildGrid | packages/extractors/extractors/tesseract.py:389-409 | no grid for fewer than two columns; otherwise the rows top to bottom, each with its cells |
| Columns.GridHoldsEachWordOnce | packages/extractors/extractors/tesseract.py:404-409 | the cells of a row together hold each of its words exactly as often as the row does |
| BoldSpans.NextIsLeftmostShortest | packages/notifiers/notifiers/telegram.py:51 | the two-search form finds the pattern's leftmost match and there the shortest, or none exactly when the pattern cannot match |
| BoldSpans.PiecesAreTheText | packages/notifiers/notifiers/email.py:43-45 | cutting a text at its matches loses nothing |
| BoldSpans.RenderText | packages/notifiers/notifiers/telegram.py:66-73 | the loop over the matches renders every piece of the text once, in order |
| Reading.TokensShowWords | packages/notifiers/notifiers/email.py:43-45 | the characters between the marks are the text without its bold markers |
| Telegram.RenderMarkdownV2 | packages/notifiers/notifiers/telegram.py:63-73 | the rendering is that of the text's pieces |
| Telegram.ReadsBackExactly | packages/notifiers/notifiers/telegram.py:47-73 | a MarkdownV2 reader gets back the text's characters with one balanced pair of delimiters per bold span, everything else reserved being escaped, if and only if the text has no backslash; what it shows is then the text without bold markers |
| EmailHtml.RenderHtmlBody | packages/notifiers/notifiers/email.py:48-62 | the rendering is that of the text's pieces |
| EmailHtml.HtmlSaysTheSame | packages/notifiers/notifiers/email.py:43-62 | for every text the HTML body, its tags and entities undone, is the plaintext alternative, with no tag but the line breaks and one strong pair per bold span |
| Events.QueueIsTheLatest | apps/api/api/events.py:87-100 | a subscriber's queue is always the latest at most 256 events published since it subscribed; what it read is in order; an event neither read nor queued has 256 newer ones |
| Events.LostExactlyByOverrun | apps/api/api/events.py:91-100 | an event is lost if and only if it was the oldest of 256 unread ones as another came in |
| Events.EventQueue.Take | apps/api/api/events.py:71-75 | reading returns the oldest queued event |
| Events.EventBroadcaster.Subscribe | apps/api/api/events.py:71-75 | a new empty queue joins its tenant and no other tenant changes |
| Events.EventBroadcaster.Unsubscribe | apps/api/api/events.py:77-85 | removes the queue, and the tenant with its last one |
| Events.EventBroadcaster.Publish | apps/api/api/events.py:87-100 | every queue of the tenant gets the event and no queue of another tenant changes |
| Money.ParseReadsAllDigits | packages/extractors/extractors/normalize.py:79-112 | the digits read are those of the raw text, whatever signs, parentheses and symbols stand around them |
| Money.GroupingKeepsDigits | apps/web/components/money-value.tsx:19-20 | removing the commas gives back the digits |
| Money.GroupedInThrees | apps/web/components/money-value.tsx:20 | the integer part is one to three digits and then groups of a comma and three |
| Money.RoundTripsExactly | apps/web/components/money-value.tsx:39-43 | reading a printed amount gives it cut to two decimals if and only if the currency code carries no point, no non-zero digit and no minus sign a non-negative amount would take for its own |
| Money.CutIsFloor | apps/web/components/money-value.tsx:21-25 | the cut drops less than a cent, and nothing of an amount with at most two decimals |

## Left out

- Isolation: a transaction is one atomic step, but for the unlocked reads of the entries, which `EntryRaces.dfy` splits from their writes.
- Workflow runs start handler executions at will, not from the rows of the queue: every run the queue allows is among them, so the theorems hold for those.
- Writes left behind by a step that raises: `run_one_job` never rolls back the handler's connection and the next job's `_set_tenant` commits it (apps/worker/worker/main.py:90-98, 101-142), so writes made before an error the client raises itself, such as a NUL in a line's description inside `_persist_extraction`, can be committed by the next job. The model drops them.
- SQL, row-level security, roles and connections: tables are sequences and maps of one invoice or one queue.
- The three-way engine, duplicate detection, the line matcher and the back-off formula: their results are parameters.
- OCR, image preprocessing, model calls, SMTP, Telegram's HTTP API and storage: a foreign call is an outcome.
- Token cryptography, webhook signatures and key hashes: injective.
- InvoiceRows.InvoiceRows.HandleMatch: line matches and the stored decision reason, which no other transaction reads, are not rows of the model; in-flight interleavings of the handler are in the workflow steps, the method is the handler run alone.
- TokenNotices.OnlyTheLastTokenIsUnannounced: the approvers of one query are distinct users, so their notify jobs have distinct keys.
- JobQueue.JobQueue.RunOneJob: payloads, tenants and error texts are not columns of the model.
- JobQueue.EveryRunIsAccounted: assumes what the deployment must ensure, that only a job's current lock holder completes or fails it; `JobQueue.AccountsSurviveExactly` says what happens otherwise.
- Notify.EverySendIsAccounted: one job for the delivery key, and a stale-lock timeout longer than any handler's run, so that the reaper takes jobs of dead processes only.
- Checkpoint.CheckpointFile.Append: the write is atomic; a line cut short by a kill is a line that is not JSON, and `Load` then refuses the file.
- EvalRunner.Run: concurrency limits, timing, costs and logging; an extraction result is its stored JSON form.
- Descriptions.WordOrderIsForgotten: ASCII text; Unicode case folding and white space are not modelled.
- EvalReport.ComputeMetrics: the cost of one extraction is a given number.
- Metrics.FieldAccumulator.Accumulate: Decimal's InvalidOperation on a difference, which no parsed amount can raise.
- TokenBucket.TokenBucket.Acquire: contended waiting has no bound in the code and none here; negative requests are not modelled.
- Columns.BuildGrid: the choice of numeric, text and description columns after the grid is built.
- EmailHtml.HtmlSaysTheSame: white space collapsing in a browser, where a line feed inside a bold span shows as a space.
- Telegram.ReadsBackExactly: the reader knows bold as the only entity and refuses a backslash before nothing.
- Money.RoundTripsExactly: amounts are an optional minus, digits, and optionally a point and digits; Unicode digits and names inherited by the symbol table's object are not modelled.
- correct_field, get_match_view, list_exceptions, preview_approval_token and the render functions: reads, and single-field updates with no property across operations.
- Dataset loaders, report formatting, command lines, analytics, the web client and seed scripts.
