/** The job queue on the tables `jobs` and `dead_letters` (apps/worker/worker/db.py) and one
    turn of the poll loop (apps/worker/worker/main.py). Job ids are positions: rows are never
    deleted. Each method is one transaction; the ghost log records which ones happened. */
module JobQueue {
  import opened Wrappers

  type Time = int
  type JobId = nat

  datatype JobType = Extract | Match | Notify | Post
  datatype JobStatus = Queued | Running | Done | Dead

  datatype Job = Job(
    jobType: JobType, key: string, status: JobStatus, attempts: nat, maxAttempts: int,
    runAfter: Time, createdAt: Time, lockedAt: Option<Time>, lockedBy: Option<string>)

  datatype Event = Claimed(id: JobId) | Completed(id: JobId) | Failed(id: JobId) | Reaped(id: JobId)

  datatype Queue = Queue(jobs: seq<Job>, deadLetters: seq<JobId>, log: seq<Event>)

  const EMPTY := Queue([], [], [])

  // ---- the row-level effect of each operation ---------------------------------

  function ClaimRow(j: Job, worker: string, now: Time): Job {
    j.(status := Running, lockedAt := Some(now), lockedBy := Some(worker))
  }

  /** complete() leaves the lock columns as they are. */
  function CompleteRow(j: Job): Job {
    j.(status := Done)
  }

  /** How often a job may fail: once even where max_attempts is not positive. */
  function Tries(j: Job): nat {
    if j.maxAttempts > 1 then j.maxAttempts else 1
  }

  predicate Exhausted(j: Job) {
    j.attempts + 1 >= j.maxAttempts
  }

  function FailRow(j: Job, delay: nat, now: Time): Job {
    if Exhausted(j) then j.(status := Dead, attempts := j.attempts + 1)
    else j.(status := Queued, attempts := j.attempts + 1, runAfter := now + delay,
            lockedAt := None, lockedBy := None)
  }

  predicate Stale(j: Job, cutoff: Time) {
    j.status == Running && j.lockedAt.Some? && j.lockedAt.value < cutoff
  }

  /** reap_stale_locks does not look at max_attempts. */
  function ReapRow(j: Job): Job {
    j.(status := Queued, attempts := j.attempts + 1, lockedAt := None, lockedBy := None)
  }

  // ---- the queue's steps ------------------------------------------------------

  predicate Due(j: Job, now: Time) {
    j.status == Queued && j.runAfter <= now
  }

  /** What claim_next may return: a due job that no due job was created before. */
  ghost predicate Next(q: Queue, id: JobId, now: Time) {
    && id < |q.jobs| && Due(q.jobs[id], now)
    && forall k :: 0 <= k < |q.jobs| && Due(q.jobs[k], now) ==> q.jobs[id].createdAt <= q.jobs[k].createdAt
  }

  datatype Op =
    | Enqueue(jobType: JobType, key: string, maxAttempts: int, runAfter: Time, now: Time)
    | Claim(id: JobId, worker: string, now: Time)
    | Complete(id: JobId)
    | Fail(id: JobId, delay: nat, now: Time)
    | Reap(id: JobId)

  function KeyIndex(jobs: seq<Job>, key: string): (k: nat)
    ensures k <= |jobs|
    ensures k < |jobs| ==> jobs[k].key == key
    ensures forall i :: 0 <= i < k ==> jobs[i].key != key
  {
    if jobs == [] then 0 else if jobs[0].key == key then 0 else 1 + KeyIndex(jobs[1..], key)
  }

  function Put(q: Queue, id: JobId, j: Job, ev: Event): Queue
    requires id < |q.jobs|
  {
    q.(jobs := q.jobs[id := j], log := q.log + [ev])
  }

  /** The effect of an operation, whoever calls it; an unknown job id changes nothing. */
  function Do(q: Queue, op: Op): Queue {
    match op
    case Enqueue(t, key, max, runAfter, now) =>
      if KeyIndex(q.jobs, key) < |q.jobs| then q
      else q.(jobs := q.jobs + [Job(t, key, Queued, 0, max, runAfter, now, None, None)])
    case Claim(id, worker, now) =>
      if id >= |q.jobs| then q else Put(q, id, ClaimRow(q.jobs[id], worker, now), Claimed(id))
    case Complete(id) =>
      if id >= |q.jobs| then q else Put(q, id, CompleteRow(q.jobs[id]), Completed(id))
    case Fail(id, delay, now) =>
      if id >= |q.jobs| then q
      else
        Put(q, id, FailRow(q.jobs[id], delay, now), Failed(id)).(
          deadLetters := if Exhausted(q.jobs[id]) then q.deadLetters + [id] else q.deadLetters)
    case Reap(id) =>
      if id >= |q.jobs| then q else Put(q, id, ReapRow(q.jobs[id]), Reaped(id))
  }

  /** build_default_registry: a post job has no handler, so run_one_job can only fail it. */
  predicate HasHandler(t: JobType) {
    t != Post
  }

  /** When the code performs an operation: claims are of queued jobs, only the holder of a
      running job completes or fails it, and the reaper takes running jobs only. */
  predicate Allowed(q: Queue, op: Op) {
    match op
    case Enqueue(_, _, _, _, _) => true
    case Claim(id, _, now) => id < |q.jobs| && Due(q.jobs[id], now)
    case Complete(id) => id < |q.jobs| && q.jobs[id].status == Running && HasHandler(q.jobs[id].jobType)
    case Fail(id, _, _) => id < |q.jobs| && q.jobs[id].status == Running
    case Reap(id) => id < |q.jobs| && q.jobs[id].status == Running
  }

  ghost predicate Permitted(q: Queue, ops: seq<Op>)
    decreases |ops|
  {
    ops == [] || (Allowed(q, ops[0]) && Permitted(Do(q, ops[0]), ops[1..]))
  }

  function DoAll(q: Queue, ops: seq<Op>): Queue
    decreases |ops|
  {
    if ops == [] then q else DoAll(Do(q, ops[0]), ops[1..])
  }

  // ---- accounting -------------------------------------------------------------

  function Count(log: seq<Event>, ev: Event): nat {
    multiset(log)[ev]
  }

  predicate Active(j: Job) {
    j.status == Running || j.status == Done
  }

  /** One job's columns against the history of what was done to it. */
  ghost predicate Accounted(q: Queue, id: JobId)
    requires id < |q.jobs|
  {
    var j := q.jobs[id];
    && j.attempts == Count(q.log, Failed(id)) + Count(q.log, Reaped(id))
    && Count(q.log, Claimed(id)) == j.attempts + (if Active(j) then 1 else 0)
    && Count(q.log, Failed(id)) + (if Active(j) then 1 else 0) <= Tries(j)
    && (j.status == Queued ==> Count(q.log, Failed(id)) < Tries(j))
    && multiset(q.deadLetters)[id] == (if j.status == Dead then 1 else 0)
    && (j.status == Running ==> j.lockedAt.Some? && j.lockedBy.Some?)
    && (j.status == Queued ==> j.lockedAt.None? && j.lockedBy.None?)
  }

  predicate Releases(ev: Event, id: JobId) {
    ev == Failed(id) || ev == Reaped(id)
  }

  /** Between any two claims of a job somebody gave it back, and a job that is neither running
      nor done has been given back since its last claim. */
  ghost predicate Separated(q: Queue, id: JobId)
    requires id < |q.jobs|
  {
    && (forall a, b :: 0 <= a < b < |q.log| && q.log[a] == Claimed(id) && q.log[b] == Claimed(id) ==>
          exists m :: a < m < b && Releases(q.log[m], id))
    && (!Active(q.jobs[id]) ==> forall a :: 0 <= a < |q.log| && q.log[a] == Claimed(id) ==>
          exists m :: a < m < |q.log| && Releases(q.log[m], id))
  }

  ghost predicate OneJobPerKey(jobs: seq<Job>) {
    forall i, j :: 0 <= i < j < |jobs| ==> jobs[i].key != jobs[j].key
  }

  ghost predicate NamesKnownJobs(q: Queue) {
    && (forall i :: 0 <= i < |q.log| ==> q.log[i].id < |q.jobs|)
    && (forall i :: 0 <= i < |q.deadLetters| ==> q.deadLetters[i] < |q.jobs|)
  }

  ghost predicate QueueInv(q: Queue) {
    && (forall id :: 0 <= id < |q.jobs| ==> Accounted(q, id))
    && (forall id :: 0 <= id < |q.jobs| ==> Separated(q, id))
    && OneJobPerKey(q.jobs)
    && NamesKnownJobs(q)
    && (forall id :: 0 <= id < |q.jobs| && q.jobs[id].status == Done ==> HasHandler(q.jobs[id].jobType))
  }

  lemma {:induction false} LogGrows(log: seq<Event>, ev: Event, other: Event)
    ensures Count(log + [ev], other) == Count(log, other) + (if other == ev then 1 else 0)
  {
  }

  lemma {:induction false} EnqueueKeepsInv(q: Queue, op: Op)
    requires QueueInv(q) && op.Enqueue? && Allowed(q, op)
    ensures QueueInv(Do(q, op))
  {
    var q' := Do(q, op);
    if q' != q {
      var n := |q.jobs|;
      forall id | 0 <= id < |q'.jobs|
        ensures Accounted(q', id) && Separated(q', id)
      {
        if id < n { assert q'.jobs[id] == q.jobs[id] && Accounted(q, id) && Separated(q, id); }
      }
    }
  }

  /** An operation on one job: the others' accounts do not move. */
  lemma {:induction false} OthersStayAccounted(q: Queue, op: Op, other: JobId)
    requires !op.Enqueue? && op.id < |q.jobs| && other < |q.jobs| && other != op.id
    requires Accounted(q, other)
    ensures other < |Do(q, op).jobs| && Accounted(Do(q, op), other)
  {
    assert Do(q, op).jobs[other] == q.jobs[other];
  }

  lemma {:induction false} CountsAfter(q: Queue, op: Op)
    requires !op.Enqueue? && op.id < |q.jobs|
    ensures var q' := Do(q, op);
            && Count(q'.log, Claimed(op.id)) == Count(q.log, Claimed(op.id)) + (if op.Claim? then 1 else 0)
            && Count(q'.log, Failed(op.id)) == Count(q.log, Failed(op.id)) + (if op.Fail? then 1 else 0)
            && Count(q'.log, Reaped(op.id)) == Count(q.log, Reaped(op.id)) + (if op.Reap? then 1 else 0)
            && multiset(q'.deadLetters)[op.id]
               == multiset(q.deadLetters)[op.id] + (if op.Fail? && Exhausted(q.jobs[op.id]) then 1 else 0)
  {
    var ev := Do(q, op).log[|q.log|];
    LogGrows(q.log, ev, Claimed(op.id));
    LogGrows(q.log, ev, Failed(op.id));
    LogGrows(q.log, ev, Reaped(op.id));
  }

  /** The accounts of a job survive an operation on it exactly when the callers keep to the
      protocol: a claim takes a queued job, and complete(), fail() and the reaper take one that
      is running, or that is done. A stalled worker's late call is what breaks them. */
  lemma {:induction false} AccountsSurviveExactly(q: Queue, op: Op)
    requires !op.Enqueue? && op.id < |q.jobs| && Accounted(q, op.id)
    ensures Accounted(Do(q, op), op.id) <==>
      if op.Claim? then q.jobs[op.id].status == Queued else Active(q.jobs[op.id])
  {
    CountsAfter(q, op);
    var j, j' := q.jobs[op.id], Do(q, op).jobs[op.id];
    match op
    case Claim(_, w, now) => assert j' == ClaimRow(j, w, now);
    case Complete(_) => assert j' == CompleteRow(j);
    case Fail(_, d, now) => assert j' == FailRow(j, d, now);
    case Reap(_) => assert j' == ReapRow(j);
  }

  lemma {:induction false} OpKeepsSeparated(q: Queue, op: Op, id: JobId)
    requires !op.Enqueue? && Allowed(q, op) && id < |q.jobs| && Separated(q, id)
    ensures id < |Do(q, op).jobs| && Separated(Do(q, op), id)
  {
    var q' := Do(q, op);
    var n := |q.log|;
    forall a, b | 0 <= a < b < |q'.log| && q'.log[a] == Claimed(id) && q'.log[b] == Claimed(id)
      ensures exists m :: a < m < b && Releases(q'.log[m], id)
    {
      assert q.log[a] == Claimed(id);
      var m :| a < m < (if b < n then b else n) && Releases(q.log[m], id);
      assert Releases(q'.log[m], id);
    }
    if !Active(q'.jobs[id]) {
      forall a | 0 <= a < |q'.log| && q'.log[a] == Claimed(id)
        ensures exists m :: a < m < |q'.log| && Releases(q'.log[m], id)
      {
        if Active(q.jobs[id]) {
          assert Releases(q'.log[n], id);
        } else {
          var m :| a < m < n && Releases(q.log[m], id);
          assert Releases(q'.log[m], id);
        }
      }
    }
  }

  lemma {:induction false} OpKeepsInv(q: Queue, op: Op)
    requires QueueInv(q) && Allowed(q, op)
    ensures QueueInv(Do(q, op))
  {
    if op.Enqueue? {
      EnqueueKeepsInv(q, op);
    } else {
      AccountsSurviveExactly(q, op);
      forall id | 0 <= id < |q.jobs|
        ensures Accounted(Do(q, op), id) && Separated(Do(q, op), id)
      {
        if id != op.id { OthersStayAccounted(q, op, id); }
        OpKeepsSeparated(q, op, id);
      }
      KeysStay(q, op);
    }
  }

  lemma {:induction false} KeysStay(q: Queue, op: Op)
    requires QueueInv(q) && Allowed(q, op) && !op.Enqueue?
    ensures var q' := Do(q, op);
            && OneJobPerKey(q'.jobs) && NamesKnownJobs(q') && |q'.jobs| == |q.jobs|
            && (forall id ::
                  0 <= id < |q.jobs| ==> q'.jobs[id].key == q.jobs[id].key && q'.jobs[id].jobType == q.jobs[id].jobType)
            && (forall id :: 0 <= id < |q'.jobs| && q'.jobs[id].status == Done ==> HasHandler(q'.jobs[id].jobType))
  {
    var q' := Do(q, op);
    assert forall id :: 0 <= id < |q.jobs| && id != op.id ==> q'.jobs[id] == q.jobs[id];
    assert q'.jobs[op.id].key == q.jobs[op.id].key && q'.jobs[op.id].jobType == q.jobs[op.id].jobType;
  }

  lemma {:induction false} RunKeepsInv(q: Queue, ops: seq<Op>)
    requires QueueInv(q) && Permitted(q, ops)
    ensures QueueInv(DoAll(q, ops))
    decreases |ops|
  {
    if ops != [] {
      OpKeepsInv(q, ops[0]);
      RunKeepsInv(Do(q, ops[0]), ops[1..]);
    }
  }

  /** Every run of the queue: a job's claims, failures and reaps add up to its columns; it is
      claimed at most max_attempts times (once if that is not positive) plus once for each reap; it
      is dead exactly when it has its one dead letter; a running job is locked and a queued one is
      not. */
  lemma {:induction false} EveryRunIsAccounted(ops: seq<Op>, id: JobId)
    requires Permitted(EMPTY, ops) && id < |DoAll(EMPTY, ops).jobs|
    ensures var q := DoAll(EMPTY, ops); var j := q.jobs[id];
            && Count(q.log, Claimed(id)) == j.attempts + (if j.status == Running || j.status == Done then 1 else 0)
            && Count(q.log, Claimed(id)) <= Tries(j) + Count(q.log, Reaped(id))
            && multiset(q.deadLetters)[id] == (if j.status == Dead then 1 else 0)
            && (j.status == Running ==> j.lockedAt.Some?) && (j.status == Queued ==> j.lockedAt.None?)
            && (j.status == Done ==> j.jobType != Post)
  {
    RunKeepsInv(EMPTY, ops);
    assert Accounted(DoAll(EMPTY, ops), id);
  }

  /** Two claims of one job always have a fail() or a reap of it between them. */
  lemma {:induction false} ClaimsAreSeparated(ops: seq<Op>, id: JobId, a: nat, b: nat)
    requires Permitted(EMPTY, ops) && id < |DoAll(EMPTY, ops).jobs|
    requires var log := DoAll(EMPTY, ops).log; a < b < |log| && log[a] == Claimed(id) && log[b] == Claimed(id)
    ensures var log := DoAll(EMPTY, ops).log;
            exists m :: a < m < b && (log[m] == Failed(id) || log[m] == Reaped(id))
  {
    RunKeepsInv(EMPTY, ops);
    var q := DoAll(EMPTY, ops);
    assert Separated(q, id);
    var m :| a < m < b && Releases(q.log[m], id);
  }

  /** A job keeps its id, key and type; done and dead are final; history is only appended to. */
  ghost predicate Continues(q: Queue, u: Queue) {
    && |q.jobs| <= |u.jobs| && q.log <= u.log && q.deadLetters <= u.deadLetters
    && forall id :: 0 <= id < |q.jobs| ==>
         && u.jobs[id].key == q.jobs[id].key && u.jobs[id].jobType == q.jobs[id].jobType
         && u.jobs[id].maxAttempts == q.jobs[id].maxAttempts && u.jobs[id].createdAt == q.jobs[id].createdAt
         && q.jobs[id].attempts <= u.jobs[id].attempts
         && (q.jobs[id].status in {Done, Dead} ==> u.jobs[id] == q.jobs[id])
  }

  lemma {:induction false} OpContinues(q: Queue, op: Op)
    requires Allowed(q, op)
    ensures Continues(q, Do(q, op))
  {
  }

  lemma {:induction false} RunContinues(q: Queue, ops: seq<Op>)
    requires Permitted(q, ops)
    ensures Continues(q, DoAll(q, ops))
    decreases |ops|
  {
    if ops != [] {
      OpContinues(q, ops[0]);
      RunContinues(Do(q, ops[0]), ops[1..]);
    }
  }

  lemma {:induction false} OnlyIndex(jobs: seq<Job>, key: string, id: JobId)
    requires OneJobPerKey(jobs) && id < |jobs| && jobs[id].key == key
    ensures KeyIndex(jobs, key) == id
  {
  }

  /** One idempotency key names one job forever: enqueueing it again, at any later time and with
      any other arguments, changes nothing and finds the same id. */
  lemma {:induction false} OneKeyNamesOneJobForever(before: seq<Op>, id: JobId, after: seq<Op>, again: Op)
    requires Permitted(EMPTY, before) && id < |DoAll(EMPTY, before).jobs|
    requires Permitted(DoAll(EMPTY, before), after)
    requires again.Enqueue? && again.key == DoAll(EMPTY, before).jobs[id].key
    ensures var q := DoAll(DoAll(EMPTY, before), after);
            Do(q, again) == q && KeyIndex(q.jobs, again.key) == id
  {
    var q0 := DoAll(EMPTY, before);
    RunKeepsInv(EMPTY, before);
    RunContinues(q0, after);
    RunKeepsInv(q0, after);
    var q := DoAll(q0, after);
    OnlyIndex(q.jobs, again.key, id);
  }

  /** Without the holder's exclusivity the accounts break: a worker that stalls past the reaper's
      cut-off and then reports its failure charges one claim twice. */
  lemma {:induction false} LateFailureIsChargedTwice(q: Queue, id: JobId, delay: nat, now: Time)
    requires id < |q.jobs| && Accounted(q, id) && q.jobs[id].status == Running
    ensures !Accounted(Do(Do(q, Reap(id)), Fail(id, delay, now)), id)
  {
    AccountsSurviveExactly(q, Reap(id));
    AccountsSurviveExactly(Do(q, Reap(id)), Fail(id, delay, now));
  }

  // ---- callers that do not keep to the protocol -------------------------------

  /** A complete(), fail() or reap of the job that finds it neither running nor done. */
  predicate Stray(q: Queue, op: Op, id: JobId) {
    (op.Complete? || op.Fail? || op.Reap?) && op.id == id && id < |q.jobs| && !Active(q.jobs[id])
  }

  function Strays(q: Queue, ops: seq<Op>, id: JobId): nat
    decreases |ops|
  {
    if ops == [] then 0 else (if Stray(q, ops[0], id) then 1 else 0) + Strays(Do(q, ops[0]), ops[1..], id)
  }

  /** claim_next takes due jobs only; the other operations take whatever id they are given. */
  ghost predicate ClaimsTakeDue(q: Queue, ops: seq<Op>)
    decreases |ops|
  {
    ops == [] || ((ops[0].Claim? ==> Allowed(q, ops[0])) && ClaimsTakeDue(Do(q, ops[0]), ops[1..]))
  }

  /** Attempts and a claim still held, less the claims. */
  function Balance(q: Queue, id: JobId): int {
    (if id < |q.jobs| then q.jobs[id].attempts + (if Active(q.jobs[id]) then 1 else 0) else 0)
    - Count(q.log, Claimed(id))
  }

  lemma {:induction false} OpBalances(q: Queue, op: Op, id: JobId)
    requires op.Claim? ==> Allowed(q, op)
    ensures Balance(Do(q, op), id) == Balance(q, id) + (if Stray(q, op, id) then 1 else 0)
  {
    if !op.Enqueue? && op.id < |q.jobs| {
      var u := Do(q, op);
      LogGrows(q.log, u.log[|q.log|], Claimed(id));
      assert id < |q.jobs| && id != op.id ==> u.jobs[id] == q.jobs[id];
      if id == op.id {
        match op
        case Claim(_, w, now) => assert u.jobs[id] == ClaimRow(q.jobs[id], w, now);
        case Complete(_) => assert u.jobs[id] == CompleteRow(q.jobs[id]);
        case Fail(_, d, now) => assert u.jobs[id] == FailRow(q.jobs[id], d, now);
        case Reap(_) => assert u.jobs[id] == ReapRow(q.jobs[id]);
      }
    }
  }

  lemma {:induction false} RunBalances(q: Queue, ops: seq<Op>, id: JobId)
    requires ClaimsTakeDue(q, ops)
    ensures Balance(DoAll(q, ops), id) == Balance(q, id) + Strays(q, ops, id)
    decreases |ops|
  {
    if ops != [] {
      OpBalances(q, ops[0], id);
      RunBalances(Do(q, ops[0]), ops[1..], id);
    }
  }

  /** Whoever calls complete(), fail() and the reaper, and with whatever ids: a job's attempts, with
      the claim it still holds, exceed its claims by one for each call that found it neither running
      nor done. So every attempt has a claim of its own if and only if no such call was ever made. */
  lemma {:induction false} AttemptsAreClaimsExactly(ops: seq<Op>, id: JobId)
    requires ClaimsTakeDue(EMPTY, ops) && id < |DoAll(EMPTY, ops).jobs|
    ensures var q := DoAll(EMPTY, ops); var held := if Active(q.jobs[id]) then 1 else 0;
            && q.jobs[id].attempts + held == Count(q.log, Claimed(id)) + Strays(EMPTY, ops, id)
            && (q.jobs[id].attempts + held == Count(q.log, Claimed(id)) <==>
                forall k :: 0 <= k < |ops| ==> !Stray(DoAll(EMPTY, ops[..k]), ops[k], id))
  {
    RunBalances(EMPTY, ops, id);
    NoneIsStray(EMPTY, ops, id);
  }

  lemma {:induction false} NoneIsStray(q: Queue, ops: seq<Op>, id: JobId)
    ensures Strays(q, ops, id) == 0 <==> forall k :: 0 <= k < |ops| ==> !Stray(DoAll(q, ops[..k]), ops[k], id)
    decreases |ops|
  {
    if ops != [] {
      var rest, u := ops[1..], Do(q, ops[0]);
      NoneIsStray(u, rest, id);
      assert ops[..0] == [];
      forall k | 0 <= k < |rest|
        ensures DoAll(q, ops[..k + 1]) == DoAll(u, rest[..k]) && ops[k + 1] == rest[k]
      {
        assert ops[..k + 1][0] == ops[0] && ops[..k + 1][1..] == rest[..k];
      }
      assert Stray(DoAll(q, ops[..0]), ops[0], id) <==> Stray(q, ops[0], id);
      if k :| 0 <= k < |rest| && Stray(DoAll(u, rest[..k]), rest[k], id) {
        assert Stray(DoAll(q, ops[..k + 1]), ops[k + 1], id);
      }
      if k :| 0 < k < |ops| && Stray(DoAll(q, ops[..k]), ops[k], id) {
        assert Stray(DoAll(u, rest[..k - 1]), rest[k - 1], id);
      }
    }
  }

  // ---- the tables and the poll loop -------------------------------------------

  /** How a handler ended: run_one_job turns any exception, or a missing handler, into fail(). */
  datatype HandlerEnd = Returned | Raised

  class JobQueue {
    var jobs: seq<Job>
    var deadLetters: seq<JobId>
    ghost var log: seq<Event>

    ghost function View(): Queue
      reads this
    {
      Queue(jobs, deadLetters, log)
    }

    constructor ()
      ensures View() == EMPTY
    {
      jobs, deadLetters, log := [], [], [];
    }

    method Enqueue(jobType: JobType, key: string, maxAttempts: Option<int>, runAfter: Option<Time>, now: Time)
      returns (id: JobId)
      modifies this
      ensures View() == Do(old(View()), Op.Enqueue(jobType, key, if maxAttempts.Some? then maxAttempts.value else 3,
                                                   if runAfter.Some? then runAfter.value else now, now))
      ensures id < |jobs| && jobs[id].key == key && id == KeyIndex(jobs, key)
      ensures id < |old(jobs)| ==> jobs == old(jobs)
    {
      id := 0;
      while id < |jobs| && jobs[id].key != key
        invariant id <= |jobs|
        invariant KeyIndex(jobs, key) == id + KeyIndex(jobs[id..], key)
      {
        assert jobs[id..][1..] == jobs[id + 1..];
        id := id + 1;
      }
      if id < |jobs| { return; }
      var max := if maxAttempts.Some? then maxAttempts.value else 3;
      var due := if runAfter.Some? then runAfter.value else now;
      jobs := jobs + [Job(jobType, key, Queued, 0, max, due, now, None, None)];
    }

    /** The oldest due job, locked; None exactly when no job is due. */
    method ClaimNext(worker: string, now: Time) returns (claimed: Option<JobId>)
      modifies this
      ensures claimed.None? ==> View() == old(View()) && forall k :: 0 <= k < |jobs| ==> !Due(jobs[k], now)
      ensures claimed.Some? ==> Next(old(View()), claimed.value, now)
                                && View() == Do(old(View()), Op.Claim(claimed.value, worker, now))
    {
      claimed := None;
      var k := 0;
      while k < |jobs|
        invariant 0 <= k <= |jobs|
        invariant claimed.None? ==> forall i :: 0 <= i < k ==> !Due(jobs[i], now)
        invariant claimed.Some? ==>
            && claimed.value < k && Due(jobs[claimed.value], now)
            && forall i :: 0 <= i < k && Due(jobs[i], now) ==> jobs[claimed.value].createdAt <= jobs[i].createdAt
      {
        if Due(jobs[k], now) && (claimed.None? || jobs[k].createdAt < jobs[claimed.value].createdAt) {
          claimed := Some(k);
        }
        k := k + 1;
      }
      if claimed.Some? {
        var id := claimed.value;
        jobs := jobs[id := jobs[id].(status := Running, lockedAt := Some(now), lockedBy := Some(worker))];
        log := log + [Claimed(id)];
      }
    }

    method Complete(id: JobId)
      modifies this
      ensures View() == Do(old(View()), Op.Complete(id))
    {
      if id < |jobs| {
        jobs := jobs[id := jobs[id].(status := Done)];
        log := log + [Completed(id)];
      }
    }

    /** False when no job has this id. `delay` is what compute_backoff returned. */
    method Fail(id: JobId, delay: nat, now: Time) returns (found: bool)
      modifies this
      ensures found == (id < |old(jobs)|)
      ensures View() == Do(old(View()), Op.Fail(id, delay, now))
    {
      found := id < |jobs|;
      if !found { return; }
      var job := jobs[id].(attempts := jobs[id].attempts + 1);
      if job.attempts >= job.maxAttempts {
        deadLetters := deadLetters + [id];
        job := job.(status := Dead);
      } else {
        job := job.(status := Queued, runAfter := now + delay, lockedAt := None, lockedBy := None);
      }
      jobs := jobs[id := job];
      log := log + [Failed(id)];
    }

    /** Every stale lock, as one reap each; returns how many there were. */
    method ReapStaleLocks(cutoff: Time) returns (count: nat, ghost ops: seq<Op>)
      modifies this
      ensures Permitted(old(View()), ops) && View() == DoAll(old(View()), ops) && count == |ops|
      ensures |jobs| == |old(jobs)|
      ensures forall k :: 0 <= k < |jobs| ==>
          jobs[k] == if Stale(old(jobs)[k], cutoff) then ReapRow(old(jobs)[k]) else old(jobs)[k]
    {
      count, ops := 0, [];
      var k := 0;
      ghost var q0 := View();
      while k < |jobs|
        invariant 0 <= k <= |jobs| == |q0.jobs| && count == |ops|
        invariant Permitted(q0, ops) && View() == DoAll(q0, ops)
        invariant forall i ::
                    0 <= i < k ==> jobs[i] == if Stale(q0.jobs[i], cutoff) then ReapRow(q0.jobs[i]) else q0.jobs[i]
        invariant forall i :: k <= i < |jobs| ==> jobs[i] == q0.jobs[i]
      {
        if Stale(jobs[k], cutoff) {
          Extend(q0, ops, Reap(k));
          jobs := jobs[k := jobs[k].(status := Queued, attempts := jobs[k].attempts + 1,
                                     lockedAt := None, lockedBy := None)];
          log := log + [Reaped(k)];
          count, ops := count + 1, ops + [Reap(k)];
        }
        k := k + 1;
      }
    }

    method EnqueueOp(op: Op)
      requires op.Enqueue?
      modifies this
      ensures View() == Do(old(View()), op) && old(jobs) <= jobs
    {
      var _ := Enqueue(op.jobType, op.key, Some(op.maxAttempts), Some(op.runAfter), op.now);
    }

    /** What a handler enqueues while it runs. */
    method EnqueueAll(handed: seq<Op>, ghost q0: Queue, ghost before: seq<Op>) returns (ghost ops: seq<Op>)
      requires (forall op <- handed :: op.Enqueue?) && Permitted(q0, before) && View() == DoAll(q0, before)
      modifies this
      ensures ops == before + handed && Permitted(q0, ops) && View() == DoAll(q0, ops)
      ensures old(jobs) <= jobs
    {
      ops := before;
      var i := 0;
      while i < |handed|
        invariant 0 <= i <= |handed| && ops == before + handed[..i]
        invariant Permitted(q0, ops) && View() == DoAll(q0, ops) && old(jobs) <= jobs
      {
        var op := handed[i];
        Extend(q0, ops, op);
        EnqueueOp(op);
        ops := ops + [op];
        i := i + 1;
      }
      assert handed[..i] == handed;
    }

    /** run_one_job: one claim, what the handler enqueues, then exactly one of complete() and
        fail() on the claimed job. Setting the tenant comes before the handler's try block: when it
        raises, the job is left running for the reaper. */
    method RunOneJob(worker: string, now: Time, tenantSet: bool, handed: seq<Op>, end: HandlerEnd, later: Time,
            delay: nat)
      returns (claimed: Option<JobId>, raised: bool, ghost ops: seq<Op>)
      requires forall op <- handed :: op.Enqueue?
      modifies this
      ensures Permitted(old(View()), ops) && View() == DoAll(old(View()), ops)
      ensures claimed.None? <==> forall k :: 0 <= k < |old(jobs)| ==> !Due(old(jobs)[k], now)
      ensures claimed.None? ==> ops == [] && !raised
      ensures claimed.Some? ==>
          && Next(old(View()), claimed.value, now) && raised == !tenantSet
          && ops == [Op.Claim(claimed.value, worker, now)]
                    + if tenantSet
                      then Finish(old(jobs)[claimed.value].jobType, claimed.value, handed, end, later, delay) else []
    {
      ghost var q0 := View();
      claimed := ClaimNext(worker, now);
      ops, raised := [], false;
      if claimed.None? { return; }
      var id := claimed.value;
      assert Due(q0.jobs[id], now);
      Extend(q0, [], Op.Claim(id, worker, now));
      ops := [Op.Claim(id, worker, now)];
      assert [] + ops == ops;
      if !tenantSet {
        raised := true;
        assert ops == ops + [];
        return;
      }
      if HasHandler(jobs[id].jobType) {
        ops := EnqueueAll(handed, q0, ops);
        if end == Returned {
          Extend(q0, ops, Op.Complete(id));
          Complete(id);
          ops := ops + [Op.Complete(id)];
          return;
        }
      }
      Extend(q0, ops, Op.Fail(id, delay, later));
      var _ := Fail(id, delay, later);
      ops := ops + [Op.Fail(id, delay, later)];
    }
  }

  /** The operations between a claim and the end of run_one_job. */
  function Finish(jobType: JobType, id: JobId, handed: seq<Op>, end: HandlerEnd, later: Time, delay: nat): seq<Op> {
    if !HasHandler(jobType) then [Op.Fail(id, delay, later)]
    else handed + [if end == Returned then Op.Complete(id) else Op.Fail(id, delay, later)]
  }

  lemma {:induction false} Extend(q: Queue, ops: seq<Op>, op: Op)
    requires Permitted(q, ops) && Allowed(DoAll(q, ops), op)
    ensures Permitted(q, ops + [op]) && DoAll(q, ops + [op]) == Do(DoAll(q, ops), op)
    decreases |ops|
  {
    if ops == [] {
      assert ([] + [op])[1..] == [];
    } else {
      assert (ops + [op])[1..] == ops[1..] + [op];
      Extend(Do(q, ops[0]), ops[1..], op);
    }
  }
}
