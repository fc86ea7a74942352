/** One evaluation run over a dataset, resumable from its checkpoint
    (packages/evals/evals/runner.py). Documents finish in any order; the process may be
    killed after any number of them. */
module EvalRunner {
  import opened Wrappers
  import opened Checkpoint
  import Seqs

  datatype Document = Document(id: DocId, truth: string)

  datatype Attempt = Extracted(result: Extraction) | Failed(error: string)

  datatype Failure = Failure(id: DocId, error: string)

  datatype Pair = Pair(truth: string, result: Extraction)

  /** `results_by_doc_id` and `failures`. */
  datatype Tally = Tally(results: map<DocId, Extraction>, failures: seq<Failure>)

  datatype Reply =
    | Killed
    | Unreadable(at: nat, fault: Fault)     // load_entries raised
    | Finished(pairs: seq<Pair>, failures: seq<Failure>)

  // ---- what the run keeps in memory -------------------------------------------

  predicate Succeeded(e: Option<Entry>) {
    e.Some? && e.value.error.None? && e.value.result.Some?
  }

  function Without(failures: seq<Failure>, id: DocId): seq<Failure> {
    if failures == [] then []
    else
      Without(failures[..|failures| - 1], id)
      + if failures[|failures| - 1].id == id then [] else [failures[|failures| - 1]]
  }

  function Of(failures: seq<Failure>, id: DocId): seq<Failure> {
    if failures == [] then []
    else
      Of(failures[..|failures| - 1], id)
      + if failures[|failures| - 1].id == id then [failures[|failures| - 1]] else []
  }

  /** One finished future. */
  function Complete(t: Tally, id: DocId, a: Attempt): Tally {
    match a
    case Extracted(r) => Tally(t.results[id := r], Without(t.failures, id))
    case Failed(e) => Tally(t.results, Without(t.failures, id) + [Failure(id, e)])
  }

  function CompleteAll(t: Tally, done: seq<Document>, attempt: Document -> Attempt): Tally {
    if done == [] then t
    else
      var d := done[|done| - 1];
      Complete(CompleteAll(t, done[..|done| - 1], attempt), d.id, attempt(d))
  }

  function EarlierFailures(order: seq<DocId>, byDoc: map<DocId, Entry>): seq<Failure>
    requires forall d <- order :: d in byDoc
  {
    if order == [] then []
    else
      var d := order[|order| - 1];
      EarlierFailures(order[..|order| - 1], byDoc)
      + if byDoc[d].error.Some? then [Failure(d, byDoc[d].error.value)] else []
  }

  function FromCheckpoint(order: seq<DocId>, byDoc: map<DocId, Entry>): Tally
    requires forall d <- order :: d in byDoc
  {
    Tally(map d | d in byDoc && byDoc[d].error.None? && byDoc[d].result.Some? :: byDoc[d].result.value,
          EarlierFailures(order, byDoc))
  }

  function EntryOf(id: DocId, a: Attempt, dataset: string, backend: string): Entry {
    match a
    case Extracted(r) => Entry(id, dataset, backend, Some(r), None)
    case Failed(e) => Entry(id, dataset, backend, None, Some(e))
  }

  function Records(done: seq<Document>, attempt: Document -> Attempt, dataset: string, backend: string): seq<Line> {
    seq(|done|, i requires 0 <= i < |done| => Record(EntryOf(done[i].id, attempt(done[i]), dataset, backend)))
  }

  function Pending(examples: seq<Document>, results: map<DocId, Extraction>): seq<Document> {
    if examples == [] then []
    else Pending(examples[..|examples| - 1], results)
         + if examples[|examples| - 1].id in results then [] else [examples[|examples| - 1]]
  }

  function Pairs(examples: seq<Document>, results: map<DocId, Extraction>): seq<Pair> {
    if examples == [] then []
    else
      var d := examples[|examples| - 1];
      Pairs(examples[..|examples| - 1], results) + if d.id in results then [Pair(d.truth, results[d.id])] else []
  }

  // ---- the run ----------------------------------------------------------------

  /** `done` is what finished, in the order it finished; a kill may stop it anywhere. Without a
      checkpoint the run starts from nothing and records nothing. */
  method Run(checkpoint: CheckpointFile?, examples: seq<Document>, dataset: string, backend: string,
             attempt: Document -> Attempt, killAfter: Option<nat>)
    returns (reply: Reply, ghost done: seq<Document>, before: Tally)
    modifies checkpoint
    ensures checkpoint != null ==>
        checkpoint.Contents() == old(checkpoint.Contents()) + Records(done, attempt, dataset, backend)
    ensures reply.Unreadable? ==> done == []
    ensures reply.Unreadable?
            <==> checkpoint != null && exists l <- old(checkpoint.Contents()) :: Bad(l, dataset, backend)
    ensures !reply.Unreadable? ==>
        && multiset(done) <= multiset(Pending(examples, before.results))
        && Agrees(before, if checkpoint == null then [] else old(checkpoint.Contents()))
    ensures reply.Killed? ==> killAfter.Some? && |done| == killAfter.value
    ensures reply.Finished? ==>
        var after := CompleteAll(before, done, attempt);
        && multiset(done) == multiset(Pending(examples, before.results))
        && reply.pairs == Pairs(examples, after.results)
        && reply.failures == after.failures
  {
    done := [];
    before := Tally(map[], []);
    if checkpoint != null {
      assert checkpoint.Contents() == checkpoint.Contents() + Records([], attempt, dataset, backend);
      var loaded := checkpoint.Load(dataset, backend);
      assert forall i :: 0 <= i < |checkpoint.Contents()| ==> checkpoint.Contents()[i] in checkpoint.Contents();
      if loaded.CheckpointError? { return Unreadable(loaded.at, loaded.fault), [], before; }
      before := FromCheckpoint(loaded.order, loaded.byDoc);
      LoadedAgrees(loaded, checkpoint.Contents());
    }
    var t, killed;
    t, killed, done := RunPending(checkpoint, before, Pending(examples, before.results), dataset, backend, attempt,
        killAfter);
    if killed { return Killed, done, before; }
    var pairs := CollectPairs(examples, t.results);
    reply := Finished(pairs, t.failures);
  }

  /** The thread pool: futures complete in any order, each is tallied and appended. */
  method RunPending(checkpoint: CheckpointFile?, before: Tally, pending: seq<Document>, dataset: string,
          backend: string, attempt: Document -> Attempt, killAfter: Option<nat>)
    returns (t: Tally, killed: bool, ghost done: seq<Document>)
    modifies checkpoint
    ensures checkpoint != null ==>
        checkpoint.Contents() == old(checkpoint.Contents()) + Records(done, attempt, dataset, backend)
    ensures t == CompleteAll(before, done, attempt)
    ensures if killed then killAfter.Some? && |done| == killAfter.value && multiset(done) <= multiset(pending)
            else multiset(done) == multiset(pending)
  {
    t, done := before, [];
    var running := pending;
    var completed := 0;
    while running != []
      invariant multiset(done) + multiset(running) == multiset(pending)
      invariant t == CompleteAll(before, done, attempt)
      invariant checkpoint != null ==>
          checkpoint.Contents() == old(checkpoint.Contents()) + Records(done, attempt, dataset, backend)
      invariant completed == |done|
      decreases |running|
    {
      if killAfter == Some(completed) {
        PartOf(done, running, pending);
        return t, true, done;
      }
      var k: nat :| k < |running|;
      var example := running[k];
      MovesOver(done, running, k);
      running := running[..k] + running[k + 1..];
      var a := attempt(example);
      OneMore(before, done, example, attempt, dataset, backend);
      t := Complete(t, example.id, a);
      if checkpoint != null { checkpoint.Append(EntryOf(example.id, a, dataset, backend)); }
      done, completed := done + [example], completed + 1;
    }
    killed := false;
  }

  lemma {:induction false} OneMore(t: Tally, done: seq<Document>, d: Document, attempt: Document -> Attempt,
          dataset: string, backend: string)
    ensures CompleteAll(t, done + [d], attempt) == Complete(CompleteAll(t, done, attempt), d.id, attempt(d))
    ensures Records(done + [d], attempt, dataset, backend)
         == Records(done, attempt, dataset, backend) + [Record(EntryOf(d.id, attempt(d), dataset, backend))]
  {
    assert (done + [d])[..|done|] == done;
  }

  method CollectPairs(examples: seq<Document>, results: map<DocId, Extraction>) returns (pairs: seq<Pair>)
    ensures pairs == Pairs(examples, results)
  {
    pairs := [];
    var i := 0;
    while i < |examples|
      invariant 0 <= i <= |examples|
      invariant pairs == Pairs(examples[..i], results)
    {
      assert examples[..i + 1][..i] == examples[..i];
      if examples[i].id in results { pairs := pairs + [Pair(examples[i].truth, results[examples[i].id])]; }
      i := i + 1;
    }
    assert examples[..i] == examples;
  }

  lemma {:induction false} MovesOver<T>(done: seq<T>, running: seq<T>, k: nat)
    requires k < |running|
    ensures multiset(done + [running[k]]) + multiset(running[..k] + running[k + 1..])
            == multiset(done) + multiset(running)
  {
    Seqs.TakeOut(running, k);
  }

  lemma {:induction false} PartOf<T>(done: seq<T>, running: seq<T>, pending: seq<T>)
    requires multiset(done) + multiset(running) == multiset(pending)
    ensures multiset(done) <= multiset(pending)
  {
  }

  // ---- memory against the file ------------------------------------------------

  lemma {:induction false} OfOneMore(failures: seq<Failure>, f: Failure, d: DocId)
    ensures Of(failures + [f], d) == Of(failures, d) + if f.id == d then [f] else []
  {
    assert (failures + [f])[..|failures|] == failures;
  }

  ghost predicate AgreesOn(t: Tally, lines: seq<Line>, d: DocId) {
    var last := LastFor(lines, d);
    && (d in t.results <==> Succeeded(last))
    && (d in t.results ==> t.results[d] == last.value.result.value)
    && Of(t.failures, d) == if last.Some? && last.value.error.Some? then [Failure(d, last.value.error.value)] else []
  }

  /** Results are the successes on file; failures list each failed document once. */
  ghost predicate Agrees(t: Tally, lines: seq<Line>) {
    forall d :: AgreesOn(t, lines, d)
  }

  lemma {:induction false} EarlierFailuresOf(order: seq<DocId>, byDoc: map<DocId, Entry>, d: DocId)
    requires (forall x <- order :: x in byDoc) && NoRepeats(order)
    ensures Of(EarlierFailures(order, byDoc), d)
         == if d in order && byDoc[d].error.Some? then [Failure(d, byDoc[d].error.value)] else []
  {
    if order != [] {
      var n := |order| - 1;
      var rest := EarlierFailures(order[..n], byDoc);
      EarlierFailuresOf(order[..n], byDoc, d);
      assert order == order[..n] + [order[n]];
      if byDoc[order[n]].error.Some? {
        OfOneMore(rest, Failure(order[n], byDoc[order[n]].error.value), d);
      } else {
        assert EarlierFailures(order, byDoc) == rest;
      }
    }
  }

  lemma {:induction false} LoadedAgrees(loaded: Loaded, lines: seq<Line>)
    requires loaded.Entries? && HoldsLast(loaded, lines)
    ensures Agrees(FromCheckpoint(loaded.order, loaded.byDoc), lines)
  {
    forall d
      ensures AgreesOn(FromCheckpoint(loaded.order, loaded.byDoc), lines, d)
    {
      EarlierFailuresOf(loaded.order, loaded.byDoc, d);
    }
  }

  lemma {:induction false} WithoutOne(failures: seq<Failure>, id: DocId, d: DocId)
    ensures Of(Without(failures, id), d) == if d == id then [] else Of(failures, d)
  {
    if failures != [] {
      var n := |failures| - 1;
      WithoutOne(failures[..n], id, d);
      var rest := Without(failures[..n], id);
      if failures[n].id == id {
        assert Without(failures, id) == rest;
        assert failures[n].id != d ==> Of(failures, d) == Of(failures[..n], d);
      } else {
        OfOneMore(rest, failures[n], d);
      }
    }
  }

  /** A document that has not succeeded yet: memory and file record its attempt alike. */
  lemma {:induction false} CompletionAgrees(t: Tally, lines: seq<Line>, id: DocId, a: Attempt, dataset: string,
          backend: string)
    requires Agrees(t, lines) && id !in t.results
    ensures Agrees(Complete(t, id, a), lines + [Record(EntryOf(id, a, dataset, backend))])
  {
    var l := Record(EntryOf(id, a, dataset, backend));
    var u := Complete(t, id, a);
    forall d
      ensures AgreesOn(u, lines + [l], d)
    {
      assert AgreesOn(t, lines, d);
      LastAfter(lines, l, d);
      WithoutOne(t.failures, id, d);
      var rest := Without(t.failures, id);
      if a.Failed? { assert (rest + [Failure(id, a.error)])[..|rest|] == rest; }
    }
  }

  ghost predicate DistinctIds(docs: seq<Document>) {
    forall i, j :: 0 <= i < j < |docs| ==> docs[i].id != docs[j].id
  }

  /** What one process may have finished, starting from this file: documents that were not yet
      successful, none twice. */
  ghost predicate Session(lines: seq<Line>, examples: seq<Document>, done: seq<Document>) {
    && DistinctIds(done)
    && forall d <- done :: d in examples && !Succeeded(LastFor(lines, d.id))
  }

  ghost predicate WholeSession(lines: seq<Line>, examples: seq<Document>, done: seq<Document>) {
    && Session(lines, examples, done)
    && forall d <- examples :: d in done || Succeeded(LastFor(lines, d.id))
  }

  /** A run adds results only for what it finished, and takes none away. */
  lemma {:induction false} ResultsGrow(t: Tally, done: seq<Document>, attempt: Document -> Attempt, id: DocId)
    ensures var r := CompleteAll(t, done, attempt).results;
            && (id in t.results ==> id in r)
            && (id in r ==> id in t.results || exists x :: x in done && x.id == id)
  {
    if done != [] {
      var init, last := done[..|done| - 1], done[|done| - 1];
      assert done == init + [last];
      ResultsGrow(t, init, attempt, id);
      if last.id == id { assert last in done; }
    }
  }

  lemma {:induction false} FileGrows(lines: seq<Line>, init: seq<Document>, last: Document,
          attempt: Document -> Attempt, dataset: string, backend: string)
    ensures lines + Records(init + [last], attempt, dataset, backend)
         == lines + Records(init, attempt, dataset, backend)
             + [Record(EntryOf(last.id, attempt(last), dataset, backend))]
  {
  }

  lemma {:induction false} SessionAgrees(t: Tally, lines: seq<Line>, examples: seq<Document>, done: seq<Document>,
                                         attempt: Document -> Attempt, dataset: string, backend: string)
    requires Agrees(t, lines) && Session(lines, examples, done)
    ensures Agrees(CompleteAll(t, done, attempt), lines + Records(done, attempt, dataset, backend))
  {
    if done == [] {
      assert lines + Records(done, attempt, dataset, backend) == lines;
    } else {
      var init, last := done[..|done| - 1], done[|done| - 1];
      assert done == init + [last];
      SessionAgrees(t, lines, examples, init, attempt, dataset, backend);
      assert AgreesOn(t, lines, last.id);
      ResultsGrow(t, init, attempt, last.id);
      CompletionAgrees(CompleteAll(t, init, attempt), lines + Records(init, attempt, dataset, backend),
                       last.id, attempt(last), dataset, backend);
      FileGrows(lines, init, last, attempt, dataset, backend);
    }
  }

  // ---- sessions and campaigns -------------------------------------------------

  lemma {:induction false} PendingIs(examples: seq<Document>, results: map<DocId, Extraction>, d: Document)
    ensures d in Pending(examples, results) <==> d in examples && d.id !in results
    ensures multiset(Pending(examples, results)) <= multiset(examples)
  {
    if examples != [] {
      var n := |examples| - 1;
      PendingIs(examples[..n], results, d);
      assert examples == examples[..n] + [examples[n]];
    }
  }

  lemma {:induction false} PartHasDistinctIds(docs: seq<Document>, part: seq<Document>)
    requires DistinctIds(docs) && multiset(part) <= multiset(docs)
    ensures DistinctIds(part)
  {
    forall i, j | 0 <= i < j < |part|
      ensures part[i].id != part[j].id
    {
      assert part[i] in multiset(docs) && part[j] in multiset(docs);
      if part[i] == part[j] {
        assert part == part[..i] + [part[i]] + part[i + 1..j] + [part[j]] + part[j + 1..];
        assert multiset(part)[part[i]] >= 2;
        OnceEach(docs, part[i]);
      }
    }
  }

  lemma {:induction false} OnceEach(docs: seq<Document>, d: Document)
    requires DistinctIds(docs)
    ensures multiset(docs)[d] <= 1
  {
    if docs != [] {
      var n := |docs| - 1;
      assert docs == docs[..n] + [docs[n]];
      OnceEach(docs[..n], d);
      if docs[n] == d { assert d !in docs[..n]; }
    }
  }

  /** Whatever Run finished is a session of its file, and a whole one when it was not killed. */
  lemma {:induction false} RunsAreSessions(examples: seq<Document>, lines: seq<Line>, before: Tally,
          done: seq<Document>)
    requires DistinctIds(examples) && Agrees(before, lines)
    requires multiset(done) <= multiset(Pending(examples, before.results))
    ensures Session(lines, examples, done)
    ensures multiset(done) == multiset(Pending(examples, before.results)) ==> WholeSession(lines, examples, done)
  {
    forall d: Document
      ensures d in Pending(examples, before.results) <==> d in examples && !Succeeded(LastFor(lines, d.id))
      ensures multiset(Pending(examples, before.results)) <= multiset(examples)
    {
      PendingIs(examples, before.results, d);
      assert AgreesOn(before, lines, d.id);
    }
    PartHasDistinctIds(examples, done);
    forall d <- done
      ensures d in Pending(examples, before.results)
    {
      assert d in multiset(done);
    }
    if multiset(done) == multiset(Pending(examples, before.results)) {
      forall d <- examples | !Succeeded(LastFor(lines, d.id))
        ensures d in done
      {
        assert d in multiset(Pending(examples, before.results));
      }
    }
  }

  lemma {:induction false} PairsAre(examples: seq<Document>, results: map<DocId, Extraction>,
          other: map<DocId, Extraction>)
    requires forall d <- examples :: d.id in results <==> d.id in other
    requires forall d <- examples :: d.id in results ==> results[d.id] == other[d.id]
    ensures Pairs(examples, results) == Pairs(examples, other)
  {
    if examples != [] {
      PairsAre(examples[..|examples| - 1], results, other);
    }
  }

  lemma {:induction false} DoneIsOnFile(lines: seq<Line>, done: seq<Document>, attempt: Document -> Attempt,
                                        dataset: string, backend: string, d: Document)
    requires DistinctIds(done) && d in done
    ensures LastFor(lines + Records(done, attempt, dataset, backend), d.id)
            == Some(EntryOf(d.id, attempt(d), dataset, backend))
  {
    var n := |done| - 1;
    var file := lines + Records(done[..n], attempt, dataset, backend);
    var l := Record(EntryOf(done[n].id, attempt(done[n]), dataset, backend));
    assert lines + Records(done, attempt, dataset, backend) == file + [l];
    LastAfter(file, l, d.id);
    if d != done[n] {
      assert d in done[..n];
      DoneIsOnFile(lines, done[..n], attempt, dataset, backend, d);
    }
  }

  /** A finished run accounts for each requested document exactly once: it has a result, from
      this run or from the file, and then no failure; or it was attempted, failed, and has
      exactly one failure, with this run's error. */
  lemma {:induction false} EachDocumentExactlyOnce(examples: seq<Document>, lines: seq<Line>, before: Tally,
          done: seq<Document>, attempt: Document -> Attempt, dataset: string, backend: string, d: Document)
    requires DistinctIds(examples) && Agrees(before, lines) && d in examples
    requires multiset(done) == multiset(Pending(examples, before.results))
    ensures var after := CompleteAll(before, done, attempt);
            && (d.id in before.results <==> d !in done)
            && (d.id in after.results <==> d.id in before.results || attempt(d).Extracted?)
            && Of(after.failures, d.id) ==
               if d in done && attempt(d).Failed? then [Failure(d.id, attempt(d).error)] else []
  {
    RunsAreSessions(examples, lines, before, done);
    SessionAgrees(before, lines, examples, done, attempt, dataset, backend);
    var after := CompleteAll(before, done, attempt);
    var file := lines + Records(done, attempt, dataset, backend);
    assert AgreesOn(before, lines, d.id);
    assert AgreesOn(after, file, d.id);
    if d in done {
      DoneIsOnFile(lines, done, attempt, dataset, backend, d);
    } else {
      ResultsGrow(before, done, attempt, d.id);
      forall x <- done
        ensures x.id != d.id
      {
        if x.id == d.id { SameIdSameDocument(examples, d, x); }
      }
      RecordsElsewhere(lines, done, attempt, dataset, backend, d.id);
    }
  }

  /** The report keeps every failure on file for documents outside the request. */
  lemma {:induction false} FailuresOutsideTheRequestStay(examples: seq<Document>, lines: seq<Line>, before: Tally,
          done: seq<Document>, attempt: Document -> Attempt, dataset: string, backend: string, d: DocId)
    requires DistinctIds(examples) && Agrees(before, lines) && forall x <- examples :: x.id != d
    requires multiset(done) == multiset(Pending(examples, before.results))
    ensures Of(CompleteAll(before, done, attempt).failures, d) == Of(before.failures, d)
  {
    RunsAreSessions(examples, lines, before, done);
    SessionAgrees(before, lines, examples, done, attempt, dataset, backend);
    RecordsElsewhere(lines, done, attempt, dataset, backend, d);
    assert AgreesOn(before, lines, d);
    assert AgreesOn(CompleteAll(before, done, attempt), lines + Records(done, attempt, dataset, backend), d);
  }

  /** A process's life: what it finished before it was killed, and how its attempts went. */
  datatype Life = Life(done: seq<Document>, attempt: Document -> Attempt)

  ghost predicate Lives(lines: seq<Line>, examples: seq<Document>, lives: seq<Life>, dataset: string, backend: string)
    decreases |lives|
  {
    lives == []
    || (Session(lines, examples, lives[0].done)
        && Lives(lines + Records(lives[0].done, lives[0].attempt, dataset, backend), examples, lives[1..], dataset,
                 backend))
  }

  function FileAfter(lines: seq<Line>, lives: seq<Life>, dataset: string, backend: string): seq<Line>
    decreases |lives|
  {
    if lives == [] then lines
    else FileAfter(lines + Records(lives[0].done, lives[0].attempt, dataset, backend), lives[1..], dataset, backend)
  }

  lemma {:induction false} RecordsElsewhere(lines: seq<Line>, done: seq<Document>, attempt: Document -> Attempt,
                                            dataset: string, backend: string, d: DocId)
    requires forall x <- done :: x.id != d
    ensures LastFor(lines + Records(done, attempt, dataset, backend), d) == LastFor(lines, d)
  {
    if done == [] {
      assert lines + Records(done, attempt, dataset, backend) == lines;
    } else {
      var n := |done| - 1;
      RecordsElsewhere(lines, done[..n], attempt, dataset, backend, d);
      var file := lines + Records(done[..n], attempt, dataset, backend);
      var l := Record(EntryOf(done[n].id, attempt(done[n]), dataset, backend));
      assert lines + Records(done, attempt, dataset, backend) == file + [l];
      LastAfter(file, l, d);
    }
  }

  /** A recorded success is final: over any number of lives, killed anywhere and whatever the
      extractor answers, the document is never attempted again and its result never changes. */
  lemma {:induction false} SuccessIsFinal(lines: seq<Line>, examples: seq<Document>, lives: seq<Life>,
                                          dataset: string, backend: string, d: DocId)
    requires Succeeded(LastFor(lines, d)) && Lives(lines, examples, lives, dataset, backend)
    ensures LastFor(FileAfter(lines, lives, dataset, backend), d) == LastFor(lines, d)
    ensures forall life <- lives, x <- life.done :: x.id != d
    decreases |lives|
  {
    if lives != [] {
      assert forall x <- lives[0].done :: x.id != d;
      RecordsElsewhere(lines, lives[0].done, lives[0].attempt, dataset, backend, d);
      SuccessIsFinal(lines + Records(lives[0].done, lives[0].attempt, dataset, backend), examples, lives[1..],
                     dataset, backend, d);
      assert forall life <- lives :: life == lives[0] || life in lives[1..];
    }
  }

  /** What is on file for a requested document is what the extractor says of it. */
  ghost predicate Faithful(lines: seq<Line>, examples: seq<Document>, attempt: Document -> Attempt, dataset: string,
          backend: string)
  {
    forall d <- examples :: LastFor(lines, d.id).Some?
      ==> LastFor(lines, d.id).value == EntryOf(d.id, attempt(d), dataset, backend)
  }

  lemma {:induction false} SameIdSameDocument(examples: seq<Document>, d: Document, x: Document)
    requires DistinctIds(examples) && d in examples && x in examples && d.id == x.id
    ensures d == x
  {
  }

  lemma {:induction false} SessionStaysFaithful(lines: seq<Line>, examples: seq<Document>, done: seq<Document>,
                                                attempt: Document -> Attempt, dataset: string, backend: string)
    requires DistinctIds(examples) && Faithful(lines, examples, attempt, dataset, backend)
    requires forall x <- done :: x in examples
    ensures Faithful(lines + Records(done, attempt, dataset, backend), examples, attempt, dataset, backend)
    ensures forall x <- done :: LastFor(lines + Records(done, attempt, dataset, backend), x.id).Some?
    ensures forall d :: LastFor(lines, d).Some? ==> LastFor(lines + Records(done, attempt, dataset, backend), d).Some?
  {
    if done == [] {
      assert lines + Records(done, attempt, dataset, backend) == lines;
    } else {
      var n := |done| - 1;
      assert done == done[..n] + [done[n]];
      SessionStaysFaithful(lines, examples, done[..n], attempt, dataset, backend);
      var file := lines + Records(done[..n], attempt, dataset, backend);
      var l := Record(EntryOf(done[n].id, attempt(done[n]), dataset, backend));
      assert lines + Records(done, attempt, dataset, backend) == file + [l];
      forall d
        ensures LastFor(file + [l], d) == if done[n].id == d then Some(l.entry) else LastFor(file, d)
      {
        LastAfter(file, l, d);
      }
      forall d <- examples | d.id == done[n].id
        ensures d == done[n]
      {
        SameIdSameDocument(examples, d, done[n]);
      }
    }
  }

  lemma {:induction false} LivesStayFaithful(lines: seq<Line>, examples: seq<Document>, lives: seq<Life>,
                                             attempt: Document -> Attempt, dataset: string, backend: string)
    requires DistinctIds(examples) && Faithful(lines, examples, attempt, dataset, backend)
    requires Lives(lines, examples, lives, dataset, backend) && forall life <- lives :: life.attempt == attempt
    ensures Faithful(FileAfter(lines, lives, dataset, backend), examples, attempt, dataset, backend)
    decreases |lives|
  {
    if lives != [] {
      SessionStaysFaithful(lines, examples, lives[0].done, attempt, dataset, backend);
      LivesStayFaithful(lines + Records(lives[0].done, lives[0].attempt, dataset, backend), examples, lives[1..],
          attempt, dataset, backend);
    }
  }

  /** The pairs of the documents the extractor can read, in dataset order. */
  function Ideal(examples: seq<Document>, attempt: Document -> Attempt): seq<Pair> {
    if examples == [] then []
    else
      var d := examples[|examples| - 1];
      Ideal(examples[..|examples| - 1], attempt)
      + if attempt(d).Extracted? then [Pair(d.truth, attempt(d).result)] else []
  }

  lemma {:induction false} PairsAreIdeal(examples: seq<Document>, results: map<DocId, Extraction>,
          attempt: Document -> Attempt)
    requires forall d <- examples :: d.id in results <==> attempt(d).Extracted?
    requires forall d <- examples :: d.id in results ==> results[d.id] == attempt(d).result
    ensures Pairs(examples, results) == Ideal(examples, attempt)
  {
    if examples != [] {
      PairsAreIdeal(examples[..|examples| - 1], results, attempt);
    }
  }

  // ---- shared ids -------------------------------------------------------------

  /** Documents with one id are read alike. */
  ghost predicate SharedIdsAgree(examples: seq<Document>, attempt: Document -> Attempt) {
    forall a <- examples, b <- examples :: a.id == b.id && attempt(a).Extracted? ==> attempt(b) == attempt(a)
  }

  /** A result is that of some finished document with its id, and every success leaves one. */
  lemma {:induction false} ResultsComeFrom(done: seq<Document>, attempt: Document -> Attempt, id: DocId)
    ensures var r := CompleteAll(Tally(map[], []), done, attempt).results;
            && (id in r <==> exists d :: d in done && d.id == id && attempt(d).Extracted?)
            && (id in r ==> exists d :: d in done && d.id == id && attempt(d) == Extracted(r[id]))
  {
    if done != [] {
      var init, last := done[..|done| - 1], done[|done| - 1];
      assert done == init + [last];
      ResultsComeFrom(init, attempt, id);
      var r0 := CompleteAll(Tally(map[], []), init, attempt).results;
      var r := CompleteAll(Tally(map[], []), done, attempt).results;
      if last.id == id && attempt(last).Extracted? {
        assert last in done && attempt(last) == Extracted(r[id]);
      } else if id in r {
        var d :| d in init && d.id == id && attempt(d) == Extracted(r0[id]);
        assert d in done;
      }
    }
  }

  /** Every document the extractor can read has a result. */
  ghost predicate Covers(examples: seq<Document>, results: map<DocId, Extraction>, attempt: Document -> Attempt) {
    forall d <- examples :: attempt(d).Extracted? ==> d.id in results
  }

  lemma {:induction false} IdealIsShorter(examples: seq<Document>, results: map<DocId, Extraction>,
          attempt: Document -> Attempt)
    requires Covers(examples, results, attempt)
    ensures |Ideal(examples, attempt)| <= |Pairs(examples, results)|
  {
    if examples != [] { IdealIsShorter(examples[..|examples| - 1], results, attempt); }
  }

  lemma {:induction false} LastPairIsOwn(init: seq<Document>, last: Document, results: map<DocId, Extraction>,
          attempt: Document -> Attempt)
    requires Covers(init, results, attempt) && (attempt(last).Extracted? ==> last.id in results)
    requires Pairs(init + [last], results) == Ideal(init + [last], attempt)
    ensures Pairs(init, results) == Ideal(init, attempt)
    ensures last.id in results ==> attempt(last) == Extracted(results[last.id])
  {
    assert (init + [last])[..|init|] == init;
    IdealIsShorter(init, results, attempt);
    var p, q := Pairs(init, results), Ideal(init, attempt);
    if last.id in results {
      match attempt(last)
      case Failed(_) => assert false;
      case Extracted(own) =>
        assert p + [Pair(last.truth, results[last.id])] == q + [Pair(last.truth, own)];
        SameEnds(p, Pair(last.truth, results[last.id]), q, Pair(last.truth, own));
    } else {
      assert p + [] == p && q + [] == q;
    }
  }

  lemma {:induction false} SameEnds<T>(p: seq<T>, x: T, q: seq<T>, y: T)
    requires p + [x] == q + [y]
    ensures p == q && x == y
  {
    assert |p + [x]| == |q + [y]|;
    assert (p + [x])[..|p|] == p && (q + [y])[..|q|] == q;
    assert (p + [x])[|p|] == x && (q + [y])[|q|] == y;
  }

  lemma {:induction false} IdealPairsAreOwn(examples: seq<Document>, results: map<DocId, Extraction>,
          attempt: Document -> Attempt, d: Document)
    requires Covers(examples, results, attempt)
    requires Pairs(examples, results) == Ideal(examples, attempt) && d in examples && d.id in results
    ensures attempt(d) == Extracted(results[d.id])
  {
    var n := |examples| - 1;
    var init, last := examples[..n], examples[n];
    assert examples == init + [last];
    LastPairIsOwn(init, last, results, attempt);
    if d != last { IdealPairsAreOwn(init, results, attempt, d); }
  }

  lemma {:induction false} FreshResults(examples: seq<Document>, done: seq<Document>, attempt: Document -> Attempt,
          d: Document)
    requires multiset(done) == multiset(examples) && d in examples
    ensures var r := CompleteAll(Tally(map[], []), done, attempt).results;
            && (attempt(d).Extracted? ==> d.id in r)
            && (d.id in r ==> exists x :: x in examples && x.id == d.id && attempt(x) == Extracted(r[d.id]))
  {
    var r := CompleteAll(Tally(map[], []), done, attempt).results;
    ResultsComeFrom(done, attempt, d.id);
    assert d in multiset(done);
    if d.id in r {
      var x :| x in done && x.id == d.id && attempt(x) == Extracted(r[d.id]);
      assert x in multiset(examples);
    }
  }

  lemma {:induction false} AgreeingIdsAreOwn(examples: seq<Document>, done: seq<Document>, attempt: Document -> Attempt)
    requires multiset(done) == multiset(examples) && SharedIdsAgree(examples, attempt)
    ensures Pairs(examples, CompleteAll(Tally(map[], []), done, attempt).results) == Ideal(examples, attempt)
  {
    var r := CompleteAll(Tally(map[], []), done, attempt).results;
    forall d <- examples
      ensures d.id in r <==> attempt(d).Extracted?
      ensures d.id in r ==> r[d.id] == attempt(d).result
    {
      FreshResults(examples, done, attempt, d);
      if d.id in r {
        var x :| x in examples && x.id == d.id && attempt(x) == Extracted(r[d.id]);
        assert attempt(d) == attempt(x);
      }
    }
    PairsAreIdeal(examples, r, attempt);
  }

  lemma {:induction false} OwnPairsAgree(examples: seq<Document>, done: seq<Document>, attempt: Document -> Attempt,
          a: Document, b: Document)
    requires multiset(done) == multiset(examples) && a in examples && b in examples && a.id == b.id
             && attempt(a).Extracted?
    requires Pairs(examples, CompleteAll(Tally(map[], []), done, attempt).results) == Ideal(examples, attempt)
    ensures attempt(b) == attempt(a)
  {
    var r := CompleteAll(Tally(map[], []), done, attempt).results;
    forall d <- examples
      ensures attempt(d).Extracted? ==> d.id in r
    {
      FreshResults(examples, done, attempt, d);
    }
    IdealPairsAreOwn(examples, r, attempt, a);
    IdealPairsAreOwn(examples, r, attempt, b);
  }

  /** When ids need not be distinct: a run from nothing, in any completion order, pairs every
      document with its own extraction if and only if documents that share an id are read alike. */
  lemma {:induction false} PairsAreOwnExactly(examples: seq<Document>, done: seq<Document>,
          attempt: Document -> Attempt)
    requires multiset(done) == multiset(examples)
    ensures Pairs(examples, CompleteAll(Tally(map[], []), done, attempt).results) == Ideal(examples, attempt)
            <==> SharedIdsAgree(examples, attempt)
  {
    if SharedIdsAgree(examples, attempt) { AgreeingIdsAreOwn(examples, done, attempt); }
    if Pairs(examples, CompleteAll(Tally(map[], []), done, attempt).results) == Ideal(examples, attempt) {
      forall a <- examples, b <- examples | a.id == b.id && attempt(a).Extracted?
        ensures attempt(b) == attempt(a)
      {
        OwnPairsAgree(examples, done, attempt, a, b);
      }
    }
  }

  /** Resuming is transparent. With a deterministic extractor and distinct document ids, any
      number of lives killed after any prefix of completions, in any completion order, followed
      by one that is not killed, ends with the same pairs in dataset order: those one
      uninterrupted run of the extractor over the dataset gives. */
  lemma {:induction false} ResumeIsTransparent(examples: seq<Document>, lives: seq<Life>,
          attempt: Document -> Attempt, dataset: string, backend: string, before: Tally, done: seq<Document>)
    requires DistinctIds(examples)
    requires Lives([], examples, lives, dataset, backend) && forall life <- lives :: life.attempt == attempt
    requires Agrees(before, FileAfter([], lives, dataset, backend))
    requires multiset(done) == multiset(Pending(examples, before.results))
    ensures Pairs(examples, CompleteAll(before, done, attempt).results) == Ideal(examples, attempt)
  {
    var lines := FileAfter([], lives, dataset, backend);
    LivesStayFaithful([], examples, lives, attempt, dataset, backend);
    RunsAreSessions(examples, lines, before, done);
    SessionAgrees(before, lines, examples, done, attempt, dataset, backend);
    SessionStaysFaithful(lines, examples, done, attempt, dataset, backend);
    var after := CompleteAll(before, done, attempt);
    var file := lines + Records(done, attempt, dataset, backend);
    forall d <- examples
      ensures d.id in after.results <==> attempt(d).Extracted?
      ensures d.id in after.results ==> after.results[d.id] == attempt(d).result
    {
      assert AgreesOn(after, file, d.id);
      assert d in done || Succeeded(LastFor(lines, d.id));
      assert LastFor(file, d.id) == Some(EntryOf(d.id, attempt(d), dataset, backend));
    }
    PairsAreIdeal(examples, after.results, attempt);
  }
}
