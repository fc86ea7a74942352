/** One notify job and its delivery row (apps/worker/worker/notify_handler.py), run by the queue
    of apps/worker/worker/db.py. The handler commits between its steps, may break at any of
    them, and the process may die at any of them; the reaper then gives the job back. */
module Notify {
  import opened Wrappers
  import JobQueue

  type Time = JobQueue.Time
  type Job = JobQueue.Job

  datatype DeliveryStatus = Pending | Sent | DeadLettered

  datatype Delivery = Delivery(status: DeliveryStatus, attempts: nat)

  /** How notifier.send ended. Unhandled is an exception the handler does not name. */
  datatype Outcome = Accepted | Retryable | Permanent | Unhandled

  /** How an attempt ended: returned, raised after marking the delivery, or raised an exception
      that marked nothing; `seen` says the attempt had read the delivery as pending. */
  datatype End = Returned | Marked | Broke(seen: bool)

  /** Where the claimed attempt stands; `snap` is the job row the claim returned. */
  datatype Phase =
    | Idle
    | Claimed(snap: Job)
    | Ready(snap: Job, tried: nat)
    | Unmarked(snap: Job, tried: nat, outcome: Outcome)
    | Finished(end: End)

  datatype World = World(
    job: Job, delivery: Option<Delivery>, phase: Phase,
    calls: nat,               // notifier.send was called
    accepted: nat,            // ... and returned normally
    lostMarks: nat,           // ... and `_mark_sent` never followed
    reaps: nat,
    lastEnd: Option<End>)

  datatype Step =
    | Claim(worker: string, now: Time)
    | Load
    | Send(outcome: Outcome)
    | Mark
    | Break                   // any other exception: a bad payload, get_notifier, the database
    | Settle(delay: nat, now: Time)
    | Crash
    | Reap

  predicate Settled(d: Option<Delivery>) {
    d.Some? && d.value.status != Pending
  }

  /** `_mark_sent` and `_mark_failure`. */
  function MarkedDelivery(tried: nat, outcome: Outcome, last: bool): Delivery {
    match outcome
    case Accepted => Delivery(Sent, tried)
    case Retryable => Delivery(if last then DeadLettered else Pending, tried + 1)
    case Permanent => Delivery(DeadLettered, tried + 1)
    case Unhandled => Delivery(Pending, tried)
  }

  function LostMark(p: Phase): nat {
    if p.Unmarked? && p.outcome == Accepted then 1 else 0
  }

  function ApplyLoad(w: World, snap: Job): World {
    var d := if w.delivery.Some? then w.delivery.value else Delivery(Pending, 0);
    w.(delivery := Some(d), phase := if d.status != Pending then Finished(Returned) else Ready(snap, d.attempts))
  }

  function ApplySend(w: World, snap: Job, tried: nat, o: Outcome): World {
    w.(calls := w.calls + 1, accepted := w.accepted + (if o == Accepted then 1 else 0),
       phase := if o == Unhandled then Finished(Broke(true)) else Unmarked(snap, tried, o))
  }

  function ApplyMark(w: World, snap: Job, tried: nat, o: Outcome): World {
    w.(delivery := Some(MarkedDelivery(tried, o, JobQueue.Exhausted(snap))),
       phase := Finished(if o == Accepted then Returned else Marked))
  }

  /** run_one_job after the handler: complete() or fail(). */
  function ApplySettle(w: World, end: End, delay: nat, now: Time): World {
    w.(job := if end == Returned then JobQueue.CompleteRow(w.job) else JobQueue.FailRow(w.job, delay, now),
       phase := Idle, lastEnd := Some(end))
  }

  /** One step; a step the attempt does not stand at changes nothing. The reaper takes the job
      only from a dead process: the stale-lock timeout exceeds any handler's run. */
  function Apply(w: World, st: Step): World {
    match st
    case Claim(worker, now) =>
      if w.phase.Idle? && JobQueue.Due(w.job, now)
      then w.(job := JobQueue.ClaimRow(w.job, worker, now), phase := Claimed(JobQueue.ClaimRow(w.job, worker, now)))
      else w
    case Load => if w.phase.Claimed? then ApplyLoad(w, w.phase.snap) else w
    case Send(o) => if w.phase.Ready? then ApplySend(w, w.phase.snap, w.phase.tried, o) else w
    case Mark => if w.phase.Unmarked? then ApplyMark(w, w.phase.snap, w.phase.tried, w.phase.outcome) else w
    case Break =>
      if w.phase.Idle? || w.phase.Finished? then w
      else w.(phase := Finished(Broke(!w.phase.Claimed?)), lostMarks := w.lostMarks + LostMark(w.phase))
    case Settle(delay, now) => if w.phase.Finished? then ApplySettle(w, w.phase.end, delay, now) else w
    case Crash => w.(phase := Idle, lostMarks := w.lostMarks + LostMark(w.phase))
    case Reap =>
      if w.phase.Idle? && w.job.status == JobQueue.Running
      then w.(job := JobQueue.ReapRow(w.job), reaps := w.reaps + 1)
      else w
  }

  function Run(w: World, steps: seq<Step>): World
    decreases |steps|
  {
    if steps == [] then w else Run(Apply(w, steps[0]), steps[1..])
  }

  ghost predicate FreshJob(j: Job) {
    j.status == JobQueue.Queued && j.attempts == 0
  }

  function StartWith(j: Job, d: Option<Delivery>): World {
    World(j, d, Idle, 0, 0, 0, 0, None)
  }

  // ---- invariants -------------------------------------------------------------

  ghost predicate SnapIsCurrent(snap: Job, j: Job) {
    snap.attempts == j.attempts && snap.maxAttempts == j.maxAttempts
  }

  /** What the attempt remembers is what the rows say. */
  ghost predicate PhaseOk(w: World) {
    match w.phase
    case Idle => true
    case Claimed(snap) => SnapIsCurrent(snap, w.job)
    case Ready(snap, tried) => SnapIsCurrent(snap, w.job) && w.delivery == Some(Delivery(Pending, tried))
    case Unmarked(snap, tried, o) =>
      SnapIsCurrent(snap, w.job) && w.delivery == Some(Delivery(Pending, tried)) && o != Unhandled
    case Finished(Returned) => Settled(w.delivery)
    case Finished(Marked) => Settled(w.delivery) || !JobQueue.Exhausted(w.job)
    case Finished(Broke(seen)) => seen ==> !Settled(w.delivery)
  }

  ghost predicate JobOk(w: World) {
    && (!w.phase.Idle? ==> w.job.status == JobQueue.Running)
    && (w.job.status == JobQueue.Done ==> Settled(w.delivery))
    && (w.job.status == JobQueue.Dead ==>
          match w.lastEnd
          case None => false
          case Some(Returned) => false
          case Some(Marked) => Settled(w.delivery)
          case Some(Broke(seen)) => seen ==> !Settled(w.delivery))
  }

  ghost predicate Control(w: World) {
    PhaseOk(w) && JobOk(w)
  }

  /** A successful send is recorded as sent, about to be, or was lost. */
  ghost predicate SendsAddUp(w: World) {
    w.accepted == w.lostMarks + LostMark(w.phase)
                  + (if w.delivery.Some? && w.delivery.value.status == Sent then 1 else 0)
  }

  /** Every call of the notifier belongs to an attempt that was, or will be, charged. */
  ghost predicate CallsAreCharged(w: World) {
    && w.calls <= w.job.attempts
         + (if w.phase.Claimed? || w.phase.Ready? || w.job.status in {JobQueue.Queued, JobQueue.Dead} then 0 else 1)
    && w.job.attempts + (if w.job.status == JobQueue.Dead then 0 else 1) <= JobQueue.Tries(w.job) + w.reaps
  }

  lemma {:induction false} StepKeepsAccounts(w: World, st: Step)
    requires Control(w) && SendsAddUp(w) && CallsAreCharged(w)
    ensures SendsAddUp(Apply(w, st)) && CallsAreCharged(Apply(w, st))
    ensures Apply(w, st).job.maxAttempts == w.job.maxAttempts
  {
  }

  lemma {:induction false} RunKeepsAccounts(w: World, steps: seq<Step>)
    requires Control(w) && SendsAddUp(w) && CallsAreCharged(w)
    ensures var u := Run(w, steps);
            Control(u) && SendsAddUp(u) && CallsAreCharged(u) && u.job.maxAttempts == w.job.maxAttempts
    decreases |steps|
  {
    if steps != [] {
      StepKeepsAccounts(w, steps[0]);
      RunKeepsAccounts(Apply(w, steps[0]), steps[1..]);
    }
  }

  // ---- what every run keeps ---------------------------------------------------

  /** Over every run: successful sends are the lost marks, plus one when the delivery is sent or
      about to be marked so; and the notifier is called at most max_attempts times (once if that is
      not positive) plus once for every reap. */
  lemma {:induction false} EverySendIsAccounted(j: Job, steps: seq<Step>)
    requires FreshJob(j)
    ensures var w := Run(StartWith(j, None), steps);
            && SendsAddUp(w)
            && w.calls <= JobQueue.Tries(j) + w.reaps
            && w.job.attempts <= JobQueue.Tries(j) + w.reaps
  {
    RunKeepsAccounts(StartWith(j, None), steps);
  }

  /** The recipient gets a second message exactly when a mark was lost: a settled run whose
      delivery is sent had one successful send if and only if no crash or exception fell between
      a successful send and its mark. */
  lemma {:induction false} SentOnceExactlyWithoutLostMarks(j: Job, steps: seq<Step>)
    requires FreshJob(j)
    requires Run(StartWith(j, None), steps).delivery.Some?
             && Run(StartWith(j, None), steps).delivery.value.status == Sent
    ensures Run(StartWith(j, None), steps).accepted == 1 <==> Run(StartWith(j, None), steps).lostMarks == 0
  {
    RunKeepsAccounts(StartWith(j, None), steps);
  }

  /** The two machines agree: a done job's delivery is sent or dead; a dead job's is too when its
      last attempt marked it, and is still pending when that attempt broke after reading it. */
  lemma {:induction false} JobAndDeliveryAgree(j: Job, steps: seq<Step>)
    requires FreshJob(j)
    ensures var w := Run(StartWith(j, None), steps);
            && (w.job.status == JobQueue.Done ==> Settled(w.delivery))
            && (w.job.status == JobQueue.Dead ==> w.lastEnd.Some? && w.lastEnd.value != Returned)
            && (w.job.status == JobQueue.Dead && w.lastEnd == Some(Marked) ==> Settled(w.delivery))
            && (w.job.status == JobQueue.Dead && w.lastEnd == Some(Broke(true)) ==> !Settled(w.delivery))
  {
    RunKeepsAccounts(StartWith(j, None), steps);
  }

  /** is_last_attempt, read from the claimed row, is the branch fail() then takes: a retryable
      failure kills the delivery exactly when it kills the job. */
  lemma {:induction false} LastAttemptIsTheSameForBoth(w: World, delay: nat, now: Time)
    requires Control(w) && w.phase.Unmarked? && w.phase.outcome == Retryable
    ensures var u := Apply(Apply(w, Mark), Settle(delay, now));
            && (u.job.status == JobQueue.Dead <==> u.delivery.Some? && u.delivery.value.status == DeadLettered)
            && (u.job.status == JobQueue.Queued <==> u.delivery.Some? && u.delivery.value.status == Pending)
  {
  }

  /** Sent and dead are absorbing: the row never changes again and the notifier is never called
      again, whatever the queue does with the job. */
  lemma {:induction false} SettledForever(w: World, steps: seq<Step>)
    requires Control(w) && Settled(w.delivery)
    ensures var u := Run(w, steps); u.delivery == w.delivery && u.calls == w.calls && u.accepted == w.accepted
    decreases |steps|
  {
    if steps != [] {
      SettledForever(Apply(w, steps[0]), steps[1..]);
    }
  }

  // ---- the delivery key -------------------------------------------------------

  datatype Payload = Payload(tenant: nat, invoice: nat, exceptionId: Option<nat>, recipient: string, channel: string)

  /** What `_idempotency_key` hashes; the hash is taken to be injective. */
  datatype Key = Key(tenant: nat, exceptionId: Option<nat>, recipient: string, channel: string)

  function KeyOf(p: Payload): Key {
    Key(p.tenant, p.exceptionId, p.recipient, p.channel)
  }

  /** Two jobs share a delivery exactly when they agree on everything but the invoice. */
  lemma {:induction false} KeysIgnoreTheInvoice(p: Payload, q: Payload)
    ensures KeyOf(p) == KeyOf(q) <==> q == p.(invoice := q.invoice)
  {
    assert q == Payload(q.tenant, q.invoice, q.exceptionId, q.recipient, q.channel);
  }

  lemma {:induction false} RunJoins(w: World, first: seq<Step>, second: seq<Step>)
    ensures Run(w, first + second) == Run(Run(w, first), second)
    decreases |first|
  {
    if first == [] {
      assert first + second == second;
    } else {
      assert (first + second)[1..] == first[1..] + second;
      RunJoins(Apply(w, first[0]), first[1..], second);
    }
  }

  /** One attempt of a job, from its claim on. */
  function Attempt(worker: string, now: Time, o: Outcome): seq<Step> {
    [Claim(worker, now), Load, Send(o), Settle(0, now)]
  }

  lemma {:induction false} AttemptRuns(w: World, worker: string, now: Time, o: Outcome)
    ensures Run(w, Attempt(worker, now, o))
            == Apply(Apply(Apply(Apply(w, Claim(worker, now)), Load), Send(o)), Settle(0, now))
  {
    var steps := Attempt(worker, now, o);
    var w1 := Apply(w, steps[0]);
    var w2 := Apply(w1, steps[1]);
    var w3 := Apply(w2, steps[2]);
    assert steps[1..][1..] == steps[2..] && steps[2..][1..] == steps[3..] && steps[3..][1..] == [];
    assert Run(w, steps) == Run(w1, steps[1..]) == Run(w2, steps[2..]) == Run(w3, steps[3..])
           == Run(Apply(w3, steps[3]), []);
  }

  /** A fresh job calls the notifier in some run if and only if its delivery is not yet settled. */
  lemma {:induction false} CallsExactlyUnlessSettled(j: Job, d: Option<Delivery>)
    requires FreshJob(j)
    ensures (exists steps :: Run(StartWith(j, d), steps).calls > 0) <==> !Settled(d)
  {
    var w := StartWith(j, d);
    if Settled(d) {
      forall steps
        ensures Run(w, steps).calls == 0
      {
        SettledForever(w, steps);
      }
    } else {
      AttemptRuns(w, "", j.runAfter, Accepted);
      assert Run(w, Attempt("", j.runAfter, Accepted)).calls == 1;
    }
  }

  function RowOf(deliveries: map<Key, Delivery>, key: Key): Option<Delivery> {
    if key in deliveries then Some(deliveries[key]) else None
  }

  /** The settled rows are those of the notices already sent or given up. */
  ghost predicate SettledBy(deliveries: map<Key, Delivery>, settled: set<Payload>) {
    forall key :: Settled(RowOf(deliveries, key)) <==> exists p <- settled :: KeyOf(p) == key
  }

  /** A notice can be sent if and only if none that differs from it at most in the invoice was
      settled before. */
  lemma {:induction false} AnnouncedExactly(deliveries: map<Key, Delivery>, settled: set<Payload>, q: Payload, j: Job)
    requires FreshJob(j) && SettledBy(deliveries, settled)
    ensures (exists steps :: Run(StartWith(j, RowOf(deliveries, KeyOf(q))), steps).calls > 0)
            <==> forall p <- settled :: q != p.(invoice := q.invoice)
  {
    CallsExactlyUnlessSettled(j, RowOf(deliveries, KeyOf(q)));
    forall p <- settled
      ensures KeyOf(p) == KeyOf(q) <==> q == p.(invoice := q.invoice)
    {
      KeysIgnoreTheInvoice(p, q);
    }
  }

  /** So an approver's second invoice without an exception is announced on a channel if and only
      if the first one's delivery there is not settled. */
  lemma {:induction false} SecondInvoiceIsNeverAnnounced(p: Payload, other: nat, deliveries: map<Key, Delivery>, j: Job)
    requires FreshJob(j) && other != p.invoice
    ensures (exists steps :: Run(StartWith(j, RowOf(deliveries, KeyOf(p.(invoice := other)))), steps).calls > 0)
            <==> !Settled(RowOf(deliveries, KeyOf(p)))
  {
    KeysIgnoreTheInvoice(p, p.(invoice := other));
    CallsExactlyUnlessSettled(j, RowOf(deliveries, KeyOf(p)));
  }

  // ---- outcomes the handler names, and others ---------------------------------

  /** Every send ends in an outcome the handler names, and nothing else raises. */
  ghost predicate Named(steps: seq<Step>) {
    forall st <- steps :: !st.Break? && !(st.Send? && st.outcome == Unhandled)
  }

  ghost predicate NoCrash(steps: seq<Step>) {
    forall st <- steps :: !st.Crash?
  }

  ghost predicate NothingBroke(w: World) {
    && (w.phase.Finished? ==> !w.phase.end.Broke?)
    && (w.lastEnd.Some? ==> !w.lastEnd.value.Broke?)
  }

  lemma {:induction false} NamedRun(w: World, steps: seq<Step>)
    requires NothingBroke(w) && Named(steps)
    ensures NothingBroke(Run(w, steps))
    ensures NoCrash(steps) ==> Run(w, steps).lostMarks == w.lostMarks
    decreases |steps|
  {
    if steps != [] {
      assert steps[0] in steps;
      NamedRun(Apply(w, steps[0]), steps[1..]);
    }
  }

  /** While every send ends in one of the three outcomes the handler names and nothing else
      raises, a job that is done or dead leaves its delivery sent or dead; if the process never
      dies either, at most one send succeeds. */
  lemma {:induction false} NamedOutcomesSettle(j: Job, steps: seq<Step>)
    requires FreshJob(j) && Named(steps)
    ensures var w := Run(StartWith(j, None), steps);
            && (w.job.status in {JobQueue.Done, JobQueue.Dead} ==> Settled(w.delivery))
            && (NoCrash(steps) ==> w.accepted <= 1)
  {
    RunKeepsAccounts(StartWith(j, None), steps);
    NamedRun(StartWith(j, None), steps);
  }

  /** A queued job whose delivery is pending, with `left` failures to go. */
  ghost predicate Unlucky(w: World, left: nat) {
    && w.phase.Idle? && w.job.status == JobQueue.Queued && w.delivery in {None, Some(Delivery(Pending, 0))}
    && left > 0 && left == (if w.job.maxAttempts - w.job.attempts > 1 then w.job.maxAttempts - w.job.attempts else 1)
  }

  lemma {:induction false} UnnamedAttempt(w: World, left: nat)
    requires Unlucky(w, left)
    ensures var u := Run(w, Attempt("", w.job.runAfter, Unhandled));
            && u.delivery == Some(Delivery(Pending, 0)) && u.job.maxAttempts == w.job.maxAttempts
            && if left == 1 then u.job.status == JobQueue.Dead else Unlucky(u, left - 1)
  {
    AttemptRuns(w, "", w.job.runAfter, Unhandled);
  }

  lemma {:induction false} UnnamedAttempts(w: World, left: nat) returns (steps: seq<Step>)
    requires Unlucky(w, left)
    ensures Run(w, steps).job.status == JobQueue.Dead && Run(w, steps).delivery == Some(Delivery(Pending, 0))
    decreases left
  {
    var first := Attempt("", w.job.runAfter, Unhandled);
    UnnamedAttempt(w, left);
    if left == 1 { return first; }
    var rest := UnnamedAttempts(Run(w, first), left - 1);
    RunJoins(w, first, rest);
    steps := first + rest;
  }

  /** Whatever its max_attempts, a job all of whose sends end in an outcome the handler does not
      name dies with its delivery still pending. */
  lemma {:induction false} UnnamedFailureLosesTheDelivery(j: Job)
    requires FreshJob(j)
    ensures exists steps :: Run(StartWith(j, None), steps).job.status == JobQueue.Dead
                            && Run(StartWith(j, None), steps).delivery == Some(Delivery(Pending, 0))
  {
    var steps := UnnamedAttempts(StartWith(j, None), JobQueue.Tries(j));
  }

  // ---- the table and the handler ----------------------------------------------

  class NotificationDeliveries {
    var rows: map<Key, Delivery>

    constructor ()
      ensures rows == map[]
    {
      rows := map[];
    }

    /** INSERT ... ON CONFLICT (idempotency_key): the row, created pending if it was not there. */
    method GetOrCreate(key: Key) returns (d: Delivery)
      modifies this
      ensures key in rows && rows[key] == d
      ensures rows == if key in old(rows) then old(rows) else old(rows)[key := Delivery(Pending, 0)]
    {
      if key !in rows { rows := rows[key := Delivery(Pending, 0)]; }
      d := rows[key];
    }

    method MarkSent(key: Key)
      requires key in rows
      modifies this
      ensures rows == old(rows)[key := old(rows)[key].(status := Sent)]
    {
      rows := rows[key := rows[key].(status := Sent)];
    }

    method MarkFailure(key: Key, dead: bool, attempts: nat)
      requires key in rows
      modifies this
      ensures rows == old(rows)[key := Delivery(if dead then DeadLettered else Pending, attempts)]
    {
      rows := rows[key := Delivery(if dead then DeadLettered else Pending, attempts)];
    }

    ghost function Row(key: Key): Option<Delivery>
      reads this
    {
      if key in rows then Some(rows[key]) else None
    }

    /** handle_notify run alone, when the notifier exists and would answer `outcome`. */
    method HandleNotify(p: Payload, job: Job, outcome: Outcome) returns (raised: bool, called: bool)
      modifies this
      ensures var key := KeyOf(p);
              var w := World(job, old(Row(key)), Claimed(job), 0, 0, 0, 0, None);
              var u := Apply(Apply(Apply(w, Load), Send(outcome)), Mark);
              && Row(key) == u.delivery
              && u.phase.Finished? && raised == (u.phase.end != Returned)
              && called == (u.calls == 1)
      ensures forall k <- old(rows) :: k != KeyOf(p) ==> k in rows && rows[k] == old(rows)[k]
    {
      var key := KeyOf(p);
      var delivery := GetOrCreate(key);
      if delivery.status == Sent || delivery.status == DeadLettered { return false, false; }
      var isLastAttempt := job.attempts + 1 >= job.maxAttempts;
      called := true;
      match outcome {
        case Retryable =>
          MarkFailure(key, isLastAttempt, delivery.attempts + 1);
          raised := true;
        case Permanent =>
          MarkFailure(key, true, delivery.attempts + 1);
          raised := true;
        case Unhandled =>
          raised := true;
        case Accepted =>
          MarkSent(key);
          raised := false;
      }
    }
  }
}
