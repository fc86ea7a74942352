/** Whole runs with entries in two steps: every run with entries in one step is one of them, a
    stale read can reopen whatever any run has settled, and an invoice between two commits moves
    on exactly while somebody can still write. */
module RaceRuns {
  import opened Wrappers
  import opened InvoiceStatus
  import opened Decision
  import opened Workflow
  import opened WorkflowSafety
  import opened WorkflowRuns
  import opened EntryRaces
  import DualControl

  lemma {:induction false} RacesJoin(r: Race, first: seq<RaceStep>, second: seq<RaceStep>)
    ensures RunRace(r, first + second) == RunRace(RunRace(r, first), second)
    decreases |first|
  {
    if first == [] {
      assert first + second == second;
    } else {
      assert (first + second)[1..] == first[1..] + second;
      RacesJoin(ApplyRace(r, first[0]), first[1..], second);
    }
  }

  lemma {:induction false} OneRaceStep(r: Race, a: RaceStep)
    ensures RunRace(r, [a]) == ApplyRace(r, a)
  {
    assert RunRace(r, [a]) == RunRace(ApplyRace(r, a), [a][1..]);
  }

  lemma {:induction false} TwoRaceSteps(r: Race, a: RaceStep, b: RaceStep)
    ensures RunRace(r, [a, b]) == ApplyRace(ApplyRace(r, a), b)
  {
    assert [a, b] == [a] + [b];
    RacesJoin(r, [a], [b]);
    OneRaceStep(r, a);
    OneRaceStep(ApplyRace(r, a), b);
  }

  // ---- every atomic run is a run of separate reads and writes ------------------

  /** The step names the execution `e`. */
  predicate Names(st: Step, e: ExecId) {
    (st.ClaimExtract? || st.ClaimMatch? || st.Do? || st.Crash?) && st.e == e
  }

  ghost predicate Unnamed(steps: seq<Step>, e: ExecId) {
    forall st <- steps :: !Names(st, e)
  }

  lemma {:induction false} SomeoneElse(steps: seq<Step>) returns (e: ExecId)
    ensures forall f: ExecId :: f >= e ==> Unnamed(steps, f)
  {
    e := 0;
    if steps != [] {
      e := SomeoneElse(steps[1..]);
      var st := steps[0];
      if (st.ClaimExtract? || st.ClaimMatch? || st.Do? || st.Crash?) && st.e >= e { e := st.e + 1; }
      forall f: ExecId, s | f >= e && s in steps
        ensures !Names(s, f)
      {
        assert s == st || s in steps[1..];
        assert Unnamed(steps[1..], f);
      }
    }
  }

  /** The read and the write that a step with an entry stands for. */
  function Split(w: World, st: Step): seq<RaceStep> {
    if st.Rerun? then [Read(Request(0)), Write(Request(0))]
    else if !Entry(st) then [Other(st)]
    else if Target(w, Handler(st.e)) == Some(if st.commit.EnterExtracting? then Extracting else Matching)
    then [Read(Handler(st.e)), Write(Handler(st.e))]
    else []
  }

  lemma {:induction false} EntryIsSplit(r: Race, who: Reader)
    requires who !in r.seen && Target(r.w, who).Some?
    ensures RunRace(r, [Read(who), Write(who)])
            == Race(if Allowed(r.w.db.status, Target(r.w, who).value) then Enter(r.w, who, r.w.db.status)
                    else Refused(r.w, who),
                    r.seen)
  {
    TwoRaceSteps(r, Read(who), Write(who));
    assert r.seen[who := r.w.db.status] - {who} == r.seen;
  }

  lemma {:induction false} StepIsSplit(r: Race, st: Step, e: ExecId)
    requires r.seen.Keys <= {Handler(e)} && !Names(st, e)
    ensures RunRace(r, Split(r.w, st)) == Race(Apply(r.w, st), r.seen)
    ensures forall s <- Split(r.w, st) :: NotOf(s, e)
  {
    if st.Rerun? {
      EntryIsSplit(r, Request(0));
    } else if !Entry(st) {
      OneRaceStep(r, Other(st));
      if st.Crash? { assert r.seen - {Handler(st.e)} == r.seen; }
    } else if Split(r.w, st) != [] {
      EntryIsSplit(r, Handler(st.e));
    }
  }

  lemma {:induction false} RunIsSplit(r: Race, steps: seq<Step>, e: ExecId) returns (race: seq<RaceStep>)
    requires r.seen.Keys <= {Handler(e)} && Unnamed(steps, e)
    ensures RunRace(r, race) == Race(Run(r.w, steps), r.seen)
    ensures forall s <- race :: NotOf(s, e)
    decreases |steps|
  {
    race := [];
    if steps != [] {
      StepIsSplit(r, steps[0], e);
      var first := Split(r.w, steps[0]);
      var rest := RunIsSplit(RunRace(r, first), steps[1..], e);
      RacesJoin(r, first, rest);
      race := first + rest;
    }
  }

  /** The converse of RunsInTimeAreAtomic: every run with entries in one step is a run of separate
      reads and writes in time. */
  lemma {:induction false} AtomicRunsAreRaces(steps: seq<Step>)
    ensures exists race :: AllInTime(RACE_START, race) && RunRace(RACE_START, race).w == Run(START, steps)
  {
    var e := SomeoneElse(steps);
    var race := RunIsSplit(RACE_START, steps, e);
    EveryRunIsSafe(steps);
    MutexExactlyInTime(race);
  }

  // ---- a stale read reopens what any run has settled ---------------------------

  /** The same invoice, with one more match handler waiting before its entry. */
  function With(w: World, e: ExecId): World {
    w.(execs := w.execs[e := MatchClaimed])
  }

  lemma {:induction false} Commutes(w: World, e: ExecId, f: ExecId, db: Tables, x: Exec)
    requires e != f
    ensures At(With(w, e), f, db, x) == With(At(w, f, db, x), e)
    ensures Ended(With(w, e), f).(db := db) == With(Ended(w, f).(db := db), e)
    ensures Ended(With(w, e), f) == With(Ended(w, f), e)
  {
    assert w.execs[e := MatchClaimed][f := x] == w.execs[f := x][e := MatchClaimed];
    assert w.execs[e := MatchClaimed] - {f} == (w.execs - {f})[e := MatchClaimed];
  }

  lemma {:induction false} EarlierIgnores(w: World, e: ExecId, f: ExecId, x: Exec, c: Commit)
    requires e != f
    ensures AdvanceExtract(With(w, e), f, x, c) == With(AdvanceExtract(w, f, x, c), e)
    ensures AdvanceMatch(With(w, e), f, x, c) == With(AdvanceMatch(w, f, x, c), e)
  {
    forall db, y { Commutes(w, e, f, db, y); }
  }

  lemma {:induction false} LaterIgnores(w: World, e: ExecId, f: ExecId, x: Exec, c: Commit)
    requires e != f
    ensures AdvanceOutcome(With(w, e), f, x, c) == With(AdvanceOutcome(w, f, x, c), e)
    ensures AdvanceTokens(With(w, e), f, x, c) == With(AdvanceTokens(w, f, x, c), e)
  {
    forall db, y { Commutes(w, e, f, db, y); }
  }

  lemma {:induction false} StepIgnores(w: World, e: ExecId, st: Step)
    requires e !in w.execs && !Names(st, e)
    ensures e !in Apply(w, st).execs && Apply(With(w, e), st) == With(Apply(w, st), e)
  {
    match st
    case InApp(_, _, _, _) =>
    case Redeem(_, _, _, _) =>
    case Rerun =>
    case Resolve(_, _, _, _) =>
    case ClaimExtract(f, last) => Commutes(w, e, f, w.db, ExtractClaimed(last));
    case ClaimMatch(f) => Commutes(w, e, f, w.db, MatchClaimed);
    case Crash(f) => Commutes(w, e, f, w.db, MatchClaimed);
    case Do(f, c) => if f in w.execs { EarlierIgnores(w, e, f, w.execs[f], c); LaterIgnores(w, e, f, w.execs[f], c); }
  }

  lemma {:induction false} RunIgnores(w: World, e: ExecId, steps: seq<Step>)
    requires e !in w.execs && Unnamed(steps, e)
    ensures e !in Run(w, steps).execs && Run(With(w, e), steps) == With(Run(w, steps), e)
    decreases |steps|
  {
    if steps != [] {
      StepIgnores(w, e, steps[0]);
      RunIgnores(Apply(w, steps[0]), e, steps[1..]);
    }
  }

  predicate BeforeExtracted(s: Status) {
    s in {Status.Received, Extracting, ExtractionFailed}
  }

  lemma {:induction false} StepFromExtraction(w: World, st: Step)
    requires Inv(w) && BeforeExtracted(w.db.status)
    ensures BeforeExtracted(Apply(w, st).db.status) || Apply(w, st).db.status == Extracted
  {
    match st
    case InApp(a, v, now, pick) => InAppShape(w.db, a, v, now, pick);
    case Redeem(h, v, who, now) => LinkShape(w.db, h, v, who, now);
    case Rerun =>
    case Resolve(_, _, _, _) =>
    case ClaimExtract(_, _) =>
    case ClaimMatch(_) =>
    case Crash(_) =>
    case Do(e, c) => if e in w.execs { assert ExecOk(w.execs[e], w.db); }
  }

  lemma {:induction false} PassesExtracted(w: World, steps: seq<Step>) returns (k: nat)
    requires Inv(w) && BeforeExtracted(w.db.status) && !BeforeExtracted(Run(w, steps).db.status)
    ensures k <= |steps| && Run(w, steps[..k]).db.status == Extracted
    decreases |steps|
  {
    var u := Apply(w, steps[0]);
    StepFromExtraction(w, steps[0]);
    if u.db.status == Extracted {
      k := 1;
      assert steps[..1] == [steps[0]];
      OneStep(w, steps[0]);
    } else {
      StepKeepsInv(w, steps[0]);
      k := PassesExtracted(u, steps[1..]);
      k := k + 1;
      assert steps[..k][0] == steps[0] && steps[..k][1..] == steps[1..][..k - 1];
    }
  }

  /** A handler that reads EXTRACTED, sleeps through the rest of the run and then writes. */
  lemma {:induction false} Sleeper(before: seq<Step>, after: seq<Step>, e: ExecId) returns (race: seq<RaceStep>)
    requires Run(START, before).db.status == Extracted && Unnamed(before, e) && Unnamed(after, e)
    ensures var r := RunRace(RACE_START, race);
            && r == Race(With(Run(START, before + after), e), map[Handler(e) := Extracted])
            && ApplyRace(r, Write(Handler(e))).w.db.status == Matching
  {
    var w := Run(START, before);
    RunIgnores(START, e, before);
    RunIgnores(w, e, after);
    RunJoins(START, before, after);
    var first := RunIsSplit(RACE_START, before, e);
    var r1 := RunRace(RACE_START, first);
    var claims := [Other(ClaimMatch(e)), Read(Handler(e))];
    TwoRaceSteps(r1, claims[0], claims[1]);
    var r2 := RunRace(r1, claims);
    assert r2 == Race(With(w, e), map[Handler(e) := Extracted]);
    var rest := RunIsSplit(r2, after, e);
    RacesJoin(RACE_START, first, claims);
    RacesJoin(RACE_START, first + claims, rest);
    race := first + claims + rest;
  }

  /** Whatever a run has come to, any settlement included, a stale read can undo: for every run past
      extraction there is one of separate reads and writes, in time so far, with the same rows,
      whose next write puts the invoice back to MATCHING. */
  lemma {:induction false} EverySettlementCanBeReopened(steps: seq<Step>)
    requires !BeforeExtracted(Run(START, steps).db.status)
    ensures exists race, who :: var r := RunRace(RACE_START, race);
              && AllInTime(RACE_START, race) && r.w.db == Run(START, steps).db
              && Goes(r, who) && ApplyRace(r, Write(who)).w.db.status == Matching
  {
    EveryRunIsSafe([]);
    var k := PassesExtracted(START, steps);
    var e := SomeoneElse(steps);
    assert steps[..k] + steps[k..] == steps && Unnamed(steps, e);
    var race := Sleeper(steps[..k], steps[k..], e);
    EveryRunIsSafe(steps);
    RunIgnores(START, e, steps);
    StartKeepsInv(Run(START, steps), e, MatchClaimed);
    MutexExactlyInTime(race);
    assert Goes(RunRace(RACE_START, race), Handler(e));
  }

  /** An approved invoice among them, for all evidence that asks for two approvers. */
  lemma {:induction false} ApprovedInvoiceIsReopened(ev: Evidence, token: TokenHash, actor: Actor, now: Time)
    requires Decide(ev) == PendingApprovalBy(2) && actor.mayDecide && actor.email != ""
    ensures exists race, who :: var r := RunRace(RACE_START, race);
              && AllInTime(RACE_START, race) && r.w.db.status == Approved
              && Goes(r, who) && ApplyRace(r, Write(who)).w.db.status == Matching
  {
    DualControl.LostTokenSettlesAlone(ev, token, actor, now);
    var steps :| Run(START, steps).db.status == Approved;
    EverySettlementCanBeReopened(steps);
  }

  /** Two handlers of one job, a stalled one and its replacement, can both save its lines. */
  lemma {:induction false} LinesCanBeSavedTwice()
    ensures exists steps :: RunRace(RACE_START, steps).w.db.lineBatches == 2
  {
    var claims := [Other(ClaimExtract(0, false)), Other(ClaimExtract(1, false))];
    TwoRaceSteps(RACE_START, claims[0], claims[1]);
    var r := RunRace(RACE_START, claims);
    TwoReadersSaveLinesTwice(r, 0, 1);
    var steps := [Read(Handler(0)), Read(Handler(1)), Write(Handler(0)), Write(Handler(1)),
                  Other(Do(0, SaveLines)), Other(Do(1, SaveLines))];
    RacesJoin(RACE_START, claims, steps);
  }

  // ---- when an invoice between two commits can move ----------------------------

  /** What holds of every run, in time or not. */
  ghost predicate RaceInv(r: Race) {
    && (forall who <- r.seen :: Target(r.w, who).Some?)
    && (forall e <- r.w.execs :: RunKnown(r.w.execs[e], r.w.db))
  }

  /** A match handler's run is stored, and its outcome has the writes that are still to come. */
  predicate RunKnown(x: Exec, t: Tables) {
    && (x.RunSaved? || x.FindingsSaved? || x.Routed? ==> x.run < |t.matchRuns| && t.matchRuns[x.run].total.Some?)
    && (x.Routed? ==> Decide(t.matchRuns[x.run]).AutoPost? || Decide(t.matchRuns[x.run]).PendingApprovalBy?)
  }

  lemma {:induction false} HandlerKeepsKnown(w: World, e: ExecId, c: Commit)
    requires e in w.execs && forall f <- w.execs :: RunKnown(w.execs[f], w.db)
    ensures var u := Advance(w, e, w.execs[e], c); forall f <- u.execs :: RunKnown(u.execs[f], u.db)
  {
    AdvanceShape(w, e, w.execs[e], c);
  }

  lemma {:induction false} StepKeepsRaceInv(r: Race, st: RaceStep)
    requires RaceInv(r)
    ensures RaceInv(ApplyRace(r, st))
  {
    match st
    case Read(_) =>
    case Write(_) =>
    case Other(st) => OtherKeepsRaceInv(r, st);
  }

  lemma {:induction false} CommitKeepsRaceInv(r: Race, e: ExecId, c: Commit)
    requires RaceInv(r)
    ensures RaceInv(ApplyRace(r, Other(Do(e, c))))
  {
    if e in r.w.execs { HandlerKeepsKnown(r.w, e, c); }
  }

  lemma {:induction false} OtherKeepsRaceInv(r: Race, st: Step)
    requires RaceInv(r)
    ensures RaceInv(ApplyRace(r, Other(st)))
  {
    match st
    case InApp(a, v, now, pick) => InAppShape(r.w.db, a, v, now, pick);
    case Redeem(h, v, who, now) => LinkShape(r.w.db, h, v, who, now);
    case Rerun =>
    case Resolve(_, _, _, _) =>
    case ClaimExtract(_, _) =>
    case ClaimMatch(_) =>
    case Crash(_) =>
    case Do(e, c) => CommitKeepsRaceInv(r, e, c);
  }

  lemma {:induction false} RunKeepsRaceInv(r: Race, steps: seq<RaceStep>)
    requires RaceInv(r)
    ensures RaceInv(RunRace(r, steps))
    decreases |steps|
  {
    if steps != [] {
      StepKeepsRaceInv(r, steps[0]);
      RunKeepsRaceInv(ApplyRace(r, steps[0]), steps[1..]);
    }
  }

  /** A waiting reader whose write moves the invoice, at once or as the holder it becomes. */
  predicate CanEnter(r: Race, who: Reader) {
    Goes(r, who) && (who.Handler? || r.w.db.status != Matching)
  }

  ghost predicate Stuck(r: Race) {
    && RaceInv(r) && InTransit(r.w.db.status) && NoHolder(r.w)
    && forall who <- r.seen :: !CanEnter(r, who)
  }

  lemma {:induction false} StepKeepsStuck(r: Race, st: RaceStep)
    requires Stuck(r)
    ensures Stuck(ApplyRace(r, st)) && ApplyRace(r, st).w.db.status == r.w.db.status
  {
    StepKeepsRaceInv(r, st);
    match st
    case Read(_) =>
    case Write(_) =>
    case Other(st) => StepKeepsStranded(r.w, st);
  }

  lemma {:induction false} StuckForever(r: Race, steps: seq<RaceStep>)
    requires Stuck(r)
    ensures RunRace(r, steps).w.db.status == r.w.db.status
    decreases |steps|
  {
    if steps != [] {
      StepKeepsStuck(r, steps[0]);
      StuckForever(ApplyRace(r, steps[0]), steps[1..]);
    }
  }

  lemma {:induction false} ThenLeaves(r: Race, st: RaceStep)
    requires exists steps :: !InTransit(RunRace(ApplyRace(r, st), steps).w.db.status)
    ensures exists steps :: !InTransit(RunRace(r, steps).w.db.status)
  {
    var steps :| !InTransit(RunRace(ApplyRace(r, st), steps).w.db.status);
    FollowRace(r, st, steps);
  }

  /** The next commit of a holder on its way out of the statuses it holds. */
  function NextCommit(x: Exec): Commit {
    match x
    case BackendAtWork(_) => SaveLines
    case LinesSaved => FinishExtract
    case Loading => RejectMalformed
    case RunSaved(_) => SaveFindings
    case FindingsSaved(_, _) => ApplyFirst
    case _ => ApplySecond
  }

  function CommitsToGo(x: Exec): nat {
    if x.RunSaved? then 2 else if x.BackendAtWork? || x.FindingsSaved? then 1 else 0
  }

  lemma {:induction false} HolderCommits(r: Race, e: ExecId)
    requires RaceInv(r) && e in r.w.execs && Holder(r.w.execs[e])
    ensures var x := r.w.execs[e]; var u := ApplyRace(r, Other(Do(e, NextCommit(x)))).w;
            || !InTransit(u.db.status)
            || (e in u.execs && Holder(u.execs[e]) && CommitsToGo(u.execs[e]) < CommitsToGo(x))
  {
    if r.w.execs[e].Routed? { RoutesAreLegal(r.w.db.matchRuns[r.w.execs[e].run]); }
  }

  lemma {:induction false} HolderGetsOut(r: Race, e: ExecId)
    requires RaceInv(r) && e in r.w.execs && Holder(r.w.execs[e])
    ensures exists steps :: !InTransit(RunRace(r, steps).w.db.status)
    decreases CommitsToGo(r.w.execs[e])
  {
    var st := Other(Do(e, NextCommit(r.w.execs[e])));
    HolderCommits(r, e);
    StepKeepsRaceInv(r, st);
    if InTransit(ApplyRace(r, st).w.db.status) {
      HolderGetsOut(ApplyRace(r, st), e);
    } else {
      assert !InTransit(RunRace(ApplyRace(r, st), []).w.db.status);
    }
    ThenLeaves(r, st);
  }

  /** With entries in two steps an invoice between two commits can move on exactly while an
      execution holds its status or a reader waits whose write goes through: for every run, in time
      or not. A re-run's write onto MATCHING is the one that moves nothing. */
  lemma {:induction false} RaceMovesOnExactly(before: seq<RaceStep>)
    requires InTransit(RunRace(RACE_START, before).w.db.status)
    ensures var r := RunRace(RACE_START, before);
            (exists after :: RunRace(r, after).w.db.status != r.w.db.status)
            <==> !NoHolder(r.w) || exists who <- r.seen :: CanEnter(r, who)
  {
    var r := RunRace(RACE_START, before);
    RunKeepsRaceInv(RACE_START, before);
    if !NoHolder(r.w) {
      var e :| e in r.w.execs && Holder(r.w.execs[e]);
      HolderGetsOut(r, e);
    } else if who :| who in r.seen && CanEnter(r, who) {
      ReaderMoves(r, who);
    } else {
      forall after
        ensures RunRace(r, after).w.db.status == r.w.db.status
      {
        StuckForever(r, after);
      }
    }
  }

  lemma {:induction false} ReaderMoves(r: Race, who: Reader)
    requires RaceInv(r) && InTransit(r.w.db.status) && CanEnter(r, who)
    ensures exists after :: RunRace(r, after).w.db.status != r.w.db.status
  {
    var u := ApplyRace(r, Write(who));
    if who.Handler? {
      StepKeepsRaceInv(r, Write(who));
      HolderGetsOut(u, who.e);
      ThenLeaves(r, Write(who));
    } else {
      OneRaceStep(r, Write(who));
      assert RunRace(r, [Write(who)]).w.db.status != r.w.db.status;
    }
  }
}
