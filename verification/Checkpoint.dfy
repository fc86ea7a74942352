/** The append-only checkpoint of an evaluation run (packages/evals/evals/checkpoint.py). */
module Checkpoint {
  import opened Wrappers

  type DocId = string

  /** An extraction result in the JSON form the file stores; dump and validate are inverses. */
  type Extraction = string

  datatype Entry = Entry(
    docId: DocId, dataset: string, backend: string, result: Option<Extraction>, error: Option<string>)

  datatype Line = Blank | NotJson | Record(entry: Entry)

  datatype Fault = InvalidJson | OtherRun

  /** A dictionary in insertion order, or the CheckpointError at a line. */
  datatype Loaded = Entries(order: seq<DocId>, byDoc: map<DocId, Entry>) | CheckpointError(at: nat, fault: Fault)

  predicate Foreign(e: Entry, dataset: string, backend: string) {
    e.dataset != dataset || e.backend != backend
  }

  predicate Bad(l: Line, dataset: string, backend: string) {
    l.NotJson? || (l.Record? && Foreign(l.entry, dataset, backend))
  }

  /** The entry that counts for a document: the last one written. */
  function LastFor(lines: seq<Line>, doc: DocId): Option<Entry> {
    if lines == [] then None
    else
      var l := lines[|lines| - 1];
      if l.Record? && l.entry.docId == doc then Some(l.entry) else LastFor(lines[..|lines| - 1], doc)
  }

  lemma {:induction false} LastAfter(lines: seq<Line>, l: Line, doc: DocId)
    ensures LastFor(lines + [l], doc)
            == if l.Record? && l.entry.docId == doc then Some(l.entry) else LastFor(lines, doc)
  {
    assert (lines + [l])[..|lines|] == lines;
  }

  /** LastFor names a line that is there, and no later line is about the document. */
  lemma {:induction false} LastIsLast(lines: seq<Line>, doc: DocId)
    ensures LastFor(lines, doc).None?
            <==> forall i :: 0 <= i < |lines| && lines[i].Record? ==> lines[i].entry.docId != doc
    ensures LastFor(lines, doc).Some? ==>
              exists i :: 0 <= i < |lines| && lines[i] == Record(LastFor(lines, doc).value)
                  && lines[i].entry.docId == doc
                && forall j :: i < j < |lines| && lines[j].Record? ==> lines[j].entry.docId != doc
  {
    if lines != [] {
      var n := |lines| - 1;
      var l := lines[n];
      if !(l.Record? && l.entry.docId == doc) {
        LastIsLast(lines[..n], doc);
        if LastFor(lines, doc).Some? {
          var i :| 0 <= i < n && lines[..n][i] == Record(LastFor(lines[..n], doc).value)
              && lines[..n][i].entry.docId == doc
                   && forall j :: i < j < n && lines[..n][j].Record? ==> lines[..n][j].entry.docId != doc;
          assert forall j :: i < j < n ==> lines[j] == lines[..n][j];
        } else {
          assert forall j :: 0 <= j < n ==> lines[j] == lines[..n][j];
        }
      }
    }
  }

  ghost predicate NoRepeats<T>(s: seq<T>) {
    forall i, j :: 0 <= i < j < |s| ==> s[i] != s[j]
  }

  /** The loaded dictionary holds each document's last entry. */
  ghost predicate HoldsLast(loaded: Loaded, lines: seq<Line>)
    requires loaded.Entries?
  {
    && NoRepeats(loaded.order)
    && (forall d :: d in loaded.order <==> d in loaded.byDoc)
    && (forall d :: d in loaded.byDoc <==> LastFor(lines, d).Some?)
    && (forall d :: d in loaded.byDoc ==> loaded.byDoc[d] == LastFor(lines, d).value)
  }

  class CheckpointFile {
    var lines: Option<seq<Line>>     // None: there is no such file

    ghost function Contents(): seq<Line>
      reads this
    {
      if lines.Some? then lines.value else []
    }

    constructor ()
      ensures lines == None
    {
      lines := None;
    }

    method Append(entry: Entry)
      modifies this
      ensures lines.Some? && Contents() == old(Contents()) + [Record(entry)]
    {
      lines := Some((if lines.Some? then lines.value else []) + [Record(entry)]);
    }

    /** Fails exactly when some line is bad, at the first such line. */
    method Load(dataset: string, backend: string) returns (loaded: Loaded)
      ensures loaded.Entries? <==> forall i :: 0 <= i < |Contents()| ==> !Bad(Contents()[i], dataset, backend)
      ensures loaded.Entries? ==> HoldsLast(loaded, Contents())
      ensures loaded.CheckpointError? ==>
          && loaded.at < |Contents()| && Bad(Contents()[loaded.at], dataset, backend)
          && (forall i :: 0 <= i < loaded.at ==> !Bad(Contents()[i], dataset, backend))
          && (loaded.fault == InvalidJson <==> Contents()[loaded.at].NotJson?)
    {
      if lines.None? { return Entries([], map[]); }
      var all := lines.value;
      var order, byDoc := [], map[];
      var i := 0;
      while i < |all|
        invariant 0 <= i <= |all|
        invariant forall k :: 0 <= k < i ==> !Bad(all[k], dataset, backend)
        invariant HoldsLast(Entries(order, byDoc), all[..i])
      {
        var l := all[i];
        assert all[..i + 1] == all[..i] + [l];
        forall d
          ensures LastFor(all[..i + 1], d)
                  == if l.Record? && l.entry.docId == d then Some(l.entry) else LastFor(all[..i], d)
        {
          LastAfter(all[..i], l, d);
        }
        assert Contents()[i] == l;
        if l.NotJson? { return CheckpointError(i, InvalidJson); }
        if l.Record? {
          if Foreign(l.entry, dataset, backend) { return CheckpointError(i, OtherRun); }
          if l.entry.docId !in byDoc { order := order + [l.entry.docId]; }
          byDoc := byDoc[l.entry.docId := l.entry];
        }
        i := i + 1;
      }
      assert all[..i] == all;
      loaded := Entries(order, byDoc);
    }
  }
}
