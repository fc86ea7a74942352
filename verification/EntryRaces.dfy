/** The entries into EXTRACTING and MATCHING as the code commits them: the status is read without
    a lock, and the write that follows does not look at it again. Any transaction may commit in
    between. (Decisions, redemptions and resolutions lock the rows they read and stay one step.) */
module EntryRaces {
  import opened Wrappers
  import opened InvoiceStatus
  import opened Workflow
  import opened WorkflowSafety
  import opened WorkflowRuns

  /** Who enters: a handler's execution, or a request that calls rerun_match. */
  datatype Reader = Handler(e: ExecId) | Request(n: nat)

  /** The invoice, and the status each reader has seen and not yet acted on. */
  datatype Race = Race(w: World, seen: map<Reader, Status>)

  datatype RaceStep =
    | Read(who: Reader)
    | Write(who: Reader)
    | Other(st: Step)        // any other commit, as one step

  const RACE_START := Race(START, map[])

  /** The status a reader is to write, if it stands before an entry. */
  function Target(w: World, who: Reader): Option<Status> {
    match who
    case Request(_) => Some(Matching)
    case Handler(e) =>
      if e !in w.execs then None
      else if w.execs[e].ExtractClaimed? then Some(Extracting)
      else if w.execs[e].MatchClaimed? then Some(Matching)
      else None
  }

  predicate Entry(st: Step) {
    st.Rerun? || (st.Do? && (st.commit.EnterExtracting? || st.commit.EnterMatching?))
  }

  /** The unconditional UPDATE and its audit row, after `seen` passed validate_transition. */
  function Enter(w: World, who: Reader, seen: Status): World {
    match who
    case Request(_) => w.(db := WriteStatus(w.db, RerunRequest, seen, Matching).(rerunJobs := w.db.rerunJobs + 1))
    case Handler(e) =>
      if e !in w.execs then w
      else if w.execs[e].ExtractClaimed?
          then At(w, e, WriteStatus(w.db, Worker, seen, Extracting), BackendAtWork(w.execs[e].last))
      else if w.execs[e].MatchClaimed? then At(w, e, WriteStatus(w.db, Worker, seen, Matching), Loading)
      else w
  }

  /** validate_transition raised: the job fails, or the request does. */
  function Refused(w: World, who: Reader): World {
    if who.Handler? then Ended(w, who.e) else w
  }

  predicate Waiting(r: Race, who: Reader) {
    who in r.seen && Target(r.w, who).Some?
  }

  /** The reader's write goes through. */
  predicate Goes(r: Race, who: Reader) {
    Waiting(r, who) && Allowed(r.seen[who], Target(r.w, who).value)
  }

  function ApplyRace(r: Race, st: RaceStep): Race {
    match st
    case Read(who) =>
      if Target(r.w, who).None? || who in r.seen then r else r.(seen := r.seen[who := r.w.db.status])
    case Write(who) =>
      if !Waiting(r, who) then r
      else Race(if Goes(r, who) then Enter(r.w, who, r.seen[who]) else Refused(r.w, who), r.seen - {who})
    case Other(st) =>
      if Entry(st) then r
      else Race(Apply(r.w, st), if st.Crash? then r.seen - {Handler(st.e)} else r.seen)
  }

  function RunRace(r: Race, steps: seq<RaceStep>): Race
    decreases |steps|
  {
    if steps == [] then r else RunRace(ApplyRace(r, steps[0]), steps[1..])
  }

  /** A write that goes through finds the status its reader saw. */
  predicate InTime(r: Race, st: RaceStep) {
    st.Write? && Goes(r, st.who) ==> r.seen[st.who] == r.w.db.status
  }

  predicate AllInTime(r: Race, steps: seq<RaceStep>)
    decreases |steps|
  {
    steps != [] ==> InTime(r, steps[0]) && AllInTime(ApplyRace(r, steps[0]), steps[1..])
  }

  // ---- runs in time are runs of atomic entries --------------------------------

  /** The workflow steps that a step of the race stands for. */
  function Atomic(r: Race, st: RaceStep): seq<Step> {
    match st
    case Read(_) => []
    case Other(st) => if Entry(st) then [] else [st]
    case Write(who) =>
      if !Waiting(r, who) then []
      else if !Goes(r, who) then (if who.Handler? then [Crash(who.e)] else [])
      else if who.Request? then [Rerun]
      else if Target(r.w, who) == Some(Extracting) then [Do(who.e, EnterExtracting)]
      else [Do(who.e, EnterMatching)]
  }

  function AtomicRun(r: Race, steps: seq<RaceStep>): seq<Step>
    decreases |steps|
  {
    if steps == [] then [] else Atomic(r, steps[0]) + AtomicRun(ApplyRace(r, steps[0]), steps[1..])
  }

  lemma {:induction false} StepIsAtomic(r: Race, st: RaceStep)
    requires InTime(r, st)
    ensures ApplyRace(r, st).w == Run(r.w, Atomic(r, st))
  {
    var a := Atomic(r, st);
    if a != [] {
      assert a == [a[0]];
      OneStep(r.w, a[0]);
    }
  }

  /** A run of separate reads and writes in which every write finds what its reader saw is a run
      of the workflow with entries in one step, so all that holds of those holds of it. */
  lemma {:induction false} RunsInTimeAreAtomic(r: Race, steps: seq<RaceStep>)
    requires AllInTime(r, steps)
    ensures RunRace(r, steps).w == Run(r.w, AtomicRun(r, steps))
    decreases |steps|
  {
    if steps != [] {
      var r1 := ApplyRace(r, steps[0]);
      StepIsAtomic(r, steps[0]);
      RunsInTimeAreAtomic(r1, steps[1..]);
      RunJoins(r.w, Atomic(r, steps[0]), AtomicRun(r1, steps[1..]));
    }
  }

  // ---- and no others keep the audit path --------------------------------------

  /** Two neighbouring audit rows do not fit, or the first does not start at RECEIVED. */
  ghost predicate BrokenAt(audit: seq<AuditRow>, i: nat)
    requires i < |audit|
  {
    audit[i].before != if i == 0 then Status.Received else audit[i - 1].after
  }

  lemma {:induction false} LateWriteBreaks(r: Race, who: Reader)
    requires Chain(r.w.db.audit, r.w.db.status) && Goes(r, who) && r.seen[who] != r.w.db.status
    ensures var a := ApplyRace(r, Write(who)).w.db.audit;
            |a| == |r.w.db.audit| + 1 && BrokenAt(a, |r.w.db.audit|)
  {
  }

  lemma {:induction false} AuditGrows(r: Race, st: RaceStep)
    ensures r.w.db.audit <= ApplyRace(r, st).w.db.audit
  {
    match st
    case Read(_) =>
    case Write(_) =>
    case Other(st) => StepAuditGrows(r.w, st);
  }

  lemma {:induction false} StepAuditGrows(w: World, st: Step)
    ensures w.db.audit <= Apply(w, st).db.audit
  {
    match st
    case InApp(a, v, now, pick) => InAppShape(w.db, a, v, now, pick);
    case Redeem(h, v, who, now) => LinkShape(w.db, h, v, who, now);
    case Rerun =>
    case Resolve(_, _, _, _) =>
    case ClaimExtract(_, _) =>
    case ClaimMatch(_) =>
    case Crash(_) =>
    case Do(e, c) => if e in w.execs { AdvanceShape(w, e, w.execs[e], c); }
  }

  lemma {:induction false} RunAuditGrows(r: Race, steps: seq<RaceStep>)
    ensures r.w.db.audit <= RunRace(r, steps).w.db.audit
    decreases |steps|
  {
    if steps != [] {
      AuditGrows(r, steps[0]);
      RunAuditGrows(ApplyRace(r, steps[0]), steps[1..]);
    }
  }

  lemma {:induction false} ChainExactlyFrom(r: Race, steps: seq<RaceStep>)
    requires Inv(r.w)
    ensures AllInTime(r, steps) <==> Chain(RunRace(r, steps).w.db.audit, RunRace(r, steps).w.db.status)
    decreases |steps|
  {
    if steps != [] {
      var r1 := ApplyRace(r, steps[0]);
      if InTime(r, steps[0]) {
        StepIsAtomic(r, steps[0]);
        RunKeepsInv(r.w, Atomic(r, steps[0]));
        ChainExactlyFrom(r1, steps[1..]);
      } else {
        LateWriteBreaks(r, steps[0].who);
        RunAuditGrows(r1, steps[1..]);
        assert BrokenAt(RunRace(r, steps).w.db.audit, |r.w.db.audit|);
      }
    }
  }

  /** With unlocked reads the status is a mutex exactly when no entry writes over a status its
      reader did not see: over every run the audit rows form an unbroken legal path to the current
      status if and only if every entering write finds the status that was read; and then the
      whole workflow invariant holds. */
  lemma {:induction false} MutexExactlyInTime(steps: seq<RaceStep>)
    ensures var t := RunRace(RACE_START, steps).w.db;
            AllInTime(RACE_START, steps) <==> Chain(t.audit, t.status)
    ensures AllInTime(RACE_START, steps) <==> Inv(RunRace(RACE_START, steps).w)
  {
    EveryRunIsSafe([]);
    ChainExactlyFrom(RACE_START, steps);
    if AllInTime(RACE_START, steps) {
      RunsInTimeAreAtomic(RACE_START, steps);
      EveryRunIsSafe(AtomicRun(RACE_START, steps));
    }
  }

  // ---- what a late write does -------------------------------------------------

  lemma {:induction false} FollowRace(r: Race, st: RaceStep, steps: seq<RaceStep>)
    ensures RunRace(r, [st] + steps) == RunRace(ApplyRace(r, st), steps)
  {
    assert ([st] + steps)[1..] == steps;
  }

  /** A commit that is not the execution's own. */
  predicate NotOf(st: RaceStep, e: ExecId) {
    match st
    case Read(who) => who != Handler(e)
    case Write(who) => who != Handler(e)
    case Other(st) => (st.Do? || st.Crash?) ==> st.e != e
  }

  lemma {:induction false} ReaderWaits(r: Race, e: ExecId, st: RaceStep)
    requires e in r.w.execs && r.w.execs[e].MatchClaimed? && Handler(e) in r.seen && NotOf(st, e)
    ensures var u := ApplyRace(r, st);
            && e in u.w.execs && u.w.execs[e].MatchClaimed?
            && Handler(e) in u.seen && u.seen[Handler(e)] == r.seen[Handler(e)]
  {
  }

  lemma {:induction false} LateEntry(r: Race, e: ExecId, between: seq<RaceStep>)
    requires e in r.w.execs && r.w.execs[e].MatchClaimed? && Handler(e) in r.seen && r.seen[Handler(e)] == Extracted
    requires forall st <- between :: NotOf(st, e)
    ensures RunRace(r, between + [Write(Handler(e))]).w.db.status == Matching
    decreases |between|
  {
    if between == [] {
      assert [] + [Write(Handler(e))] == [Write(Handler(e))] + [];
      FollowRace(r, Write(Handler(e)), []);
    } else {
      ReaderWaits(r, e, between[0]);
      assert between + [Write(Handler(e))] == [between[0]] + (between[1..] + [Write(Handler(e))]);
      FollowRace(r, between[0], between[1..] + [Write(Handler(e))]);
      LateEntry(ApplyRace(r, between[0]), e, between[1..]);
    }
  }

  /** A match handler that read EXTRACTED puts the invoice back to MATCHING, whatever the others
      did in between: a settled invoice is reopened. */
  lemma {:induction false} StaleReadReopensTheInvoice(r: Race, e: ExecId, between: seq<RaceStep>)
    requires e in r.w.execs && r.w.execs[e].MatchClaimed? && Handler(e) !in r.seen && r.w.db.status == Extracted
    requires forall st <- between :: NotOf(st, e)
    ensures RunRace(r, [Read(Handler(e))] + (between + [Write(Handler(e))])).w.db.status == Matching
  {
    FollowRace(r, Read(Handler(e)), between + [Write(Handler(e))]);
    LateEntry(ApplyRace(r, Read(Handler(e))), e, between);
  }

  /** Two extract handlers that both read RECEIVED both save lines, from any state where two
      stand before the entry. */
  lemma {:induction false} TwoReadersSaveLinesTwice(r: Race, d: ExecId, e: ExecId)
    requires d != e && d in r.w.execs && e in r.w.execs && r.w.execs[d].ExtractClaimed? && r.w.execs[e].ExtractClaimed?
    requires r.w.db.status == Status.Received && Handler(d) !in r.seen && Handler(e) !in r.seen
    ensures var steps := [Read(Handler(d)), Read(Handler(e)), Write(Handler(d)), Write(Handler(e)),
                          Other(Do(d, SaveLines)), Other(Do(e, SaveLines))];
            RunRace(r, steps).w.db.lineBatches == r.w.db.lineBatches + 2
  {
    var s := [Read(Handler(d)), Read(Handler(e)), Write(Handler(d)), Write(Handler(e)),
              Other(Do(d, SaveLines)), Other(Do(e, SaveLines))];
    var r2 := ApplyRace(ApplyRace(r, s[0]), s[1]);
    assert r2.w == r.w && r2.seen[Handler(d)] == r2.seen[Handler(e)] == Status.Received;
    var r3 := ApplyRace(r2, s[2]);
    assert r3.w.execs[d].BackendAtWork? && Waiting(r3, Handler(e)) && r3.seen[Handler(e)] == Status.Received;
    var r4 := ApplyRace(r3, s[3]);
    assert r4.w.execs[d].BackendAtWork? && r4.w.execs[e].BackendAtWork? && r4.w.db.lineBatches == r.w.db.lineBatches;
    assert s[4..] == [s[4], s[5]] && s[2..] == [s[2]] + ([s[3]] + s[4..]) && s == [s[0]] + ([s[1]] + s[2..]);
    FollowRace(r, s[0], [s[1]] + s[2..]);
    FollowRace(ApplyRace(r, s[0]), s[1], s[2..]);
    FollowRace(r2, s[2], [s[3]] + s[4..]);
    FollowRace(r3, s[3], s[4..]);
    BothSave(r4, d, e);
  }

  lemma {:induction false} BothSave(r: Race, d: ExecId, e: ExecId)
    requires d != e && d in r.w.execs && e in r.w.execs && r.w.execs[d].BackendAtWork? && r.w.execs[e].BackendAtWork?
    ensures RunRace(r, [Other(Do(d, SaveLines)), Other(Do(e, SaveLines))]).w.db.lineBatches == r.w.db.lineBatches + 2
  {
    var a, b := Other(Do(d, SaveLines)), Other(Do(e, SaveLines));
    assert [a, b] == [a] + ([b] + []);
    FollowRace(r, a, [b] + []);
    FollowRace(ApplyRace(r, a), b, []);
  }
}
