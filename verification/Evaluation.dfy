/** A whole run's metrics: compute_metrics and count_header_mismatches
    (packages/evals/evals/metrics.py). A row holds one observation for each field of a header,
    or of a matched line. */
module Evaluation {
  import opened Wrappers
  import opened Metrics
  import LineItems
  import Seqs

  const HEADER_FIELDS := 8
  const LINE_FIELDS := 4

  type Header = h: seq<Raw> | |h| == 8 witness seq(8, _ => None)

  /** Description, quantity, unit price, line total. */
  type Line = l: seq<Raw> | |l| == 4 witness seq(4, _ => None)

  /** Ground truth and prediction for one document. */
  datatype Doc = Doc(
    truth: Header, predicted: Header, confidence: nat -> Option<real>,
    truthLines: seq<Line>, predictedLines: seq<Line>, lineConfidence: (nat, nat) -> Option<real>,
    latency: int, cost: real)

  type Row = seq<Obs>

  function HeaderRow(d: Doc): (r: Row)
    ensures |r| == HEADER_FIELDS
  {
    seq(HEADER_FIELDS, f requires 0 <= f < HEADER_FIELDS => Obs(d.truth[f], d.predicted[f], d.confidence(f)))
  }

  function LineDescriptions(lines: seq<Line>): seq<Raw> {
    Seqs.Map((l: Line) => l[0], lines)
  }

  predicate Indexes(d: Doc, m: LineItems.Match) {
    m.truth < |d.truthLines| && m.predicted < |d.predictedLines|
  }

  function MatchesOf(d: Doc): (r: seq<LineItems.Match>)
    ensures forall i :: 0 <= i < |r| ==> Indexes(d, r[i])
  {
    var t, p := LineItems.Keys(LineDescriptions(d.truthLines)), LineItems.Keys(LineDescriptions(d.predictedLines));
    LineItems.GreedyIsMatching(t, p, |t|);
    LineItems.GreedyPairs(t, p, |t|)
  }

  function LineRow(d: Doc, m: LineItems.Match): (r: Row)
    requires Indexes(d, m)
    ensures |r| == LINE_FIELDS
  {
    seq(LINE_FIELDS, g requires 0 <= g < LINE_FIELDS =>
      Obs(d.truthLines[m.truth][g], d.predictedLines[m.predicted][g], d.lineConfidence(m.predicted, g)))
  }

  function LineRowsOf(d: Doc, ms: seq<LineItems.Match>): (r: seq<Row>)
    requires forall i :: 0 <= i < |ms| ==> Indexes(d, ms[i])
    ensures Wide(r, LINE_FIELDS)
  {
    seq(|ms|, i requires 0 <= i < |ms| => LineRow(d, ms[i]))
  }

  ghost predicate Wide(rows: seq<Row>, n: nat) {
    forall i :: 0 <= i < |rows| ==> |rows[i]| == n
  }

  function HeaderRows(docs: seq<Doc>): (r: seq<Row>)
    ensures Wide(r, HEADER_FIELDS)
  {
    seq(|docs|, i requires 0 <= i < |docs| => HeaderRow(docs[i]))
  }

  function LineRows(docs: seq<Doc>): (r: seq<Row>)
    ensures Wide(r, LINE_FIELDS)
  {
    if docs == [] then []
    else LineRows(docs[..|docs| - 1]) + LineRowsOf(docs[|docs| - 1], MatchesOf(docs[|docs| - 1]))
  }

  /** Everything observed of one field. */
  function Column(rows: seq<Row>, f: nat): (r: seq<Obs>)
    requires forall i :: 0 <= i < |rows| ==> f < |rows[i]|
    ensures |r| == |rows|
  {
    seq(|rows|, i requires 0 <= i < |rows| => rows[i][f])
  }

  // ---- calibration pairs, in the order they are appended ----------------------

  function RowCalibrated(row: Row, rules: seq<Rule>, n: nat): seq<Calibrated>
    requires n <= |row| && n <= |rules|
  {
    if n == 0 then [] else RowCalibrated(row, rules, n - 1) + CalibratedBy(rules[n - 1], row[n - 1])
  }

  function RowsCalibrated(rows: seq<Row>, rules: seq<Rule>): seq<Calibrated>
    requires Wide(rows, |rules|)
  {
    if rows == [] then []
    else RowsCalibrated(rows[..|rows| - 1], rules) + RowCalibrated(rows[|rows| - 1], rules, |rules|)
  }

  datatype Rules = Rules(header: seq<Rule>, line: seq<Rule>)

  ghost predicate Complete(rules: Rules) {
    |rules.header| == HEADER_FIELDS && |rules.line| == LINE_FIELDS
  }

  /** The calibration pairs one document adds. */
  function CalibratedOf(d: Doc, rules: Rules): seq<Calibrated>
    requires Complete(rules)
  {
    RowCalibrated(HeaderRow(d), rules.header, HEADER_FIELDS) + RowsCalibrated(LineRowsOf(d, MatchesOf(d)), rules.line)
  }

  function AllCalibrated(docs: seq<Doc>, rules: Rules): seq<Calibrated>
    requires Complete(rules)
  {
    if docs == [] then []
    else AllCalibrated(docs[..|docs| - 1], rules) + CalibratedOf(docs[|docs| - 1], rules)
  }

  function Latencies(docs: seq<Doc>): seq<int> {
    Seqs.Map((d: Doc) => d.latency, docs)
  }

  function TotalCost(docs: seq<Doc>): real {
    if docs == [] then 0.0 else TotalCost(docs[..|docs| - 1]) + docs[|docs| - 1].cost
  }

  function TruthLines(docs: seq<Doc>): nat {
    if docs == [] then 0 else TruthLines(docs[..|docs| - 1]) + |docs[|docs| - 1].truthLines|
  }

  function PredictedLines(docs: seq<Doc>): nat {
    if docs == [] then 0 else PredictedLines(docs[..|docs| - 1]) + |docs[|docs| - 1].predictedLines|
  }

  // ---- the run ----------------------------------------------------------------

  ghost predicate Separate(accs: seq<FieldAccumulator>) {
    forall i, j :: 0 <= i < j < |accs| ==> accs[i] != accs[j]
  }

  function Views(accs: seq<FieldAccumulator>): (r: seq<Field>)
    reads accs
  {
    seq(|accs|, f requires 0 <= f < |accs| reads accs => accs[f].View())
  }

  /** Field by field, the tally of its column. */
  function Tallies(rows: seq<Row>, rules: seq<Rule>): (r: seq<Field>)
    requires Wide(rows, |rules|)
  {
    seq(|rules|, f requires 0 <= f < |rules| => Tally(Column(rows, f), rules[f]))
  }

  /** The accumulators hold the tallies of the rows. */
  ghost predicate Tallied(accs: seq<FieldAccumulator>, rows: seq<Row>, rules: seq<Rule>)
    requires Wide(rows, |rules|)
    reads accs
  {
    Views(accs) == Tallies(rows, rules)
  }

  lemma {:induction false} ColumnGrows(rows: seq<Row>, row: Row, f: nat, rule: Rule)
    requires Wide(rows, |row|) && f < |row|
    ensures Wide(rows + [row], |row|)
    ensures Tally(Column(rows + [row], f), rule) == Add(Tally(Column(rows, f), rule), rule, row[f])
  {
    assert Column(rows + [row], f)[..|rows|] == Column(rows, f);
  }

  /** One more row, field by field. */
  function AddRowTo(fields: seq<Field>, rules: seq<Rule>, row: Row): (r: seq<Field>)
    requires |fields| == |rules| == |row|
  {
    seq(|rules|, f requires 0 <= f < |rules| => Add(fields[f], rules[f], row[f]))
  }

  lemma {:induction false} TalliesGrow(rows: seq<Row>, row: Row, rules: seq<Rule>)
    requires Wide(rows, |rules|) && |row| == |rules|
    ensures Wide(rows + [row], |rules|)
    ensures Tallies(rows + [row], rules) == AddRowTo(Tallies(rows, rules), rules, row)
  {
    forall f | 0 <= f < |rules|
      ensures Tallies(rows + [row], rules)[f] == Add(Tallies(rows, rules)[f], rules[f], row[f])
    {
      ColumnGrows(rows, row, f, rules[f]);
    }
  }

  /** One field of a row; the other accumulators keep what they have. */
  method AddField(accs: seq<FieldAccumulator>, f: nat, rule: Rule, o: Obs) returns (calibrated: seq<Calibrated>)
    requires Separate(accs) && f < |accs|
    modifies accs[f]
    ensures Views(accs) == old(Views(accs))[f := Add(old(Views(accs))[f], rule, o)]
    ensures calibrated == CalibratedBy(rule, o)
  {
    calibrated := accs[f].Accumulate(rule, o);
    assert forall k :: 0 <= k < |accs| && k != f ==> accs[k] != accs[f];
  }

  /** The loop over the field names, for a header or for a matched line. */
  method AddRow(accs: seq<FieldAccumulator>, row: Row, rules: seq<Rule>) returns (calibrated: seq<Calibrated>)
    requires Separate(accs) && |accs| == |rules| == |row|
    modifies accs
    ensures Views(accs) == AddRowTo(old(Views(accs)), rules, row)
    ensures calibrated == RowCalibrated(row, rules, |rules|)
  {
    calibrated := [];
    var f := 0;
    ghost var before, after := Views(accs), AddRowTo(Views(accs), rules, row);
    while f < |accs|
      invariant 0 <= f <= |accs|
      invariant forall k :: 0 <= k < |accs| ==> Views(accs)[k] == if k < f then after[k] else before[k]
      invariant calibrated == RowCalibrated(row, rules, f)
    {
      var more := AddField(accs, f, rules[f], row[f]);
      calibrated := calibrated + more;
      f := f + 1;
    }
  }

  method TallyRow(accs: seq<FieldAccumulator>, row: Row, rules: seq<Rule>, ghost rows: seq<Row>)
    returns (calibrated: seq<Calibrated>)
    requires Separate(accs) && |accs| == |rules| == |row| && Wide(rows, |rules|) && Tallied(accs, rows, rules)
    modifies accs
    ensures Tallied(accs, rows + [row], rules)
    ensures calibrated == RowCalibrated(row, rules, |rules|)
  {
    TalliesGrow(rows, row, rules);
    calibrated := AddRow(accs, row, rules);
  }

  lemma {:induction false} OneMoreRow(more: seq<Row>, i: nat, rules: seq<Rule>)
    requires i < |more| && Wide(more, |rules|)
    ensures RowsCalibrated(more[..i + 1], rules)
            == RowsCalibrated(more[..i], rules) + RowCalibrated(more[i], rules, |rules|)
    ensures more[..i + 1] == more[..i] + [more[i]]
  {
    var m := more[..i + 1];
    assert m == more[..i] + [more[i]];
    assert |m| == i + 1 && m[..i] == more[..i] && m[i] == more[i];
  }

  method AddRows(accs: seq<FieldAccumulator>, more: seq<Row>, rules: seq<Rule>, ghost rows: seq<Row>)
    returns (calibrated: seq<Calibrated>)
    requires Separate(accs) && |accs| == |rules| && Wide(rows, |rules|) && Wide(more, |rules|)
             && Tallied(accs, rows, rules)
    modifies accs
    ensures Tallied(accs, rows + more, rules)
    ensures calibrated == RowsCalibrated(more, rules)
  {
    calibrated := [];
    var i := 0;
    ghost var seen := rows;
    while i < |more|
      invariant 0 <= i <= |more|
      invariant seen == rows + more[..i] && Wide(seen, |rules|) && Tallied(accs, seen, rules)
      invariant calibrated == RowsCalibrated(more[..i], rules)
    {
      OneMoreRow(more, i, rules);
      var next := TallyRow(accs, more[i], rules, seen);
      calibrated := calibrated + next;
      seen := seen + [more[i]];
      i := i + 1;
    }
    assert more[..i] == more;
  }

  method NewAccumulators(rules: seq<Rule>) returns (accs: seq<FieldAccumulator>)
    ensures Separate(accs) && fresh(accs) && |accs| == |rules| && Tallied(accs, [], rules)
  {
    accs := [];
    while |accs| < |rules|
      invariant |accs| <= |rules| && fresh(accs) && Separate(accs)
      invariant forall i :: 0 <= i < |accs| ==> accs[i].View() == NO_FIELD
    {
      var a := new FieldAccumulator();
      accs := accs + [a];
    }
  }

  /** The accumulators hold what the documents so far contribute. */
  ghost predicate Measured(header: seq<FieldAccumulator>, line: seq<FieldAccumulator>, docs: seq<Doc>, rules: Rules)
    requires Complete(rules) && |header| == HEADER_FIELDS && |line| == LINE_FIELDS
    reads header, line
  {
    Tallied(header, HeaderRows(docs), rules.header) && Tallied(line, LineRows(docs), rules.line)
  }

  datatype Totals = Totals(
    calibrated: seq<Calibrated>, truthLines: nat, predictedLines: nat, matched: nat, latencies: seq<int>, cost: real)

  function TotalsOf(docs: seq<Doc>, rules: Rules): Totals
    requires Complete(rules)
  {
    Totals(AllCalibrated(docs, rules), TruthLines(docs), PredictedLines(docs), |LineRows(docs)|, Latencies(docs),
        TotalCost(docs))
  }

  /** The totals after one more document, its matches and its calibration pairs. */
  function Grown(t: Totals, d: Doc, ms: seq<LineItems.Match>, more: seq<Calibrated>): Totals {
    Totals(t.calibrated + more, t.truthLines + |d.truthLines|, t.predictedLines + |d.predictedLines|, t.matched + |ms|,
           t.latencies + [d.latency], t.cost + d.cost)
  }

  method MatchDocument(d: Doc) returns (ms: seq<LineItems.Match>)
    ensures ms == MatchesOf(d)
  {
    ms := LineItems.MatchLineItems(LineDescriptions(d.truthLines), LineDescriptions(d.predictedLines));
  }

  /** The body of the loop over the documents. */
  method AddDocument(header: seq<FieldAccumulator>, line: seq<FieldAccumulator>, d: Doc, rules: Rules, before: Totals,
          ghost done: seq<Doc>)
    returns (after: Totals)
    requires Complete(rules) && Apart(header, line) && |header| == HEADER_FIELDS && |line| == LINE_FIELDS
    requires Measured(header, line, done, rules) && before == TotalsOf(done, rules)
    modifies header, line
    ensures Measured(header, line, done + [d], rules) && after == TotalsOf(done + [d], rules)
  {
    var ms := MatchDocument(d);
    RowsGrow(done, d);
    TotalsGrow(done, d, rules);
    var fromHeader := TallyRow(header, HeaderRow(d), rules.header, HeaderRows(done));
    assert Views(line) == old(Views(line));
    var fromLines := AddRows(line, LineRowsOf(d, ms), rules.line, LineRows(done));
    after := Grown(before, d, ms, fromHeader + fromLines);
  }

  method AddDocuments(header: seq<FieldAccumulator>, line: seq<FieldAccumulator>, docs: seq<Doc>, rules: Rules)
    returns (totals: Totals)
    requires Complete(rules) && Apart(header, line) && |header| == HEADER_FIELDS && |line| == LINE_FIELDS
    requires Measured(header, line, [], rules)
    modifies header, line
    ensures Measured(header, line, docs, rules) && totals == TotalsOf(docs, rules)
  {
    totals := Totals([], 0, 0, 0, [], 0.0);
    var i := 0;
    ghost var done: seq<Doc> := [];
    while i < |docs|
      invariant 0 <= i <= |docs| && done == docs[..i]
      invariant Measured(header, line, done, rules) && totals == TotalsOf(done, rules)
    {
      totals := AddDocument(header, line, docs[i], rules, totals, done);
      Seqs.TakeOneMore(docs, i);
      done := done + [docs[i]];
      i := i + 1;
    }
    assert docs[..i] == docs;
  }

  /** compute_metrics up to the end of its loop. */
  method AccumulateAll(docs: seq<Doc>, rules: Rules)
    returns (header: seq<FieldAccumulator>, line: seq<FieldAccumulator>, totals: Totals)
    requires Complete(rules)
    ensures |header| == HEADER_FIELDS && |line| == LINE_FIELDS && Measured(header, line, docs, rules)
    ensures totals == TotalsOf(docs, rules)
  {
    header := NewAccumulators(rules.header);
    line := NewAccumulators(rules.line);
    assert HeaderRows([]) == [];
    totals := AddDocuments(header, line, docs, rules);
  }

  lemma {:induction false} RowsGrow(before: seq<Doc>, d: Doc)
    ensures HeaderRows(before + [d]) == HeaderRows(before) + [HeaderRow(d)]
    ensures LineRows(before + [d]) == LineRows(before) + LineRowsOf(d, MatchesOf(d))
  {
    assert (before + [d])[..|before|] == before;
  }

  lemma {:induction false} TotalsGrow(before: seq<Doc>, d: Doc, rules: Rules)
    requires Complete(rules)
    ensures TotalsOf(before + [d], rules) == Grown(TotalsOf(before, rules), d, MatchesOf(d), CalibratedOf(d, rules))
  {
    RowsGrow(before, d);
  }

  ghost predicate Apart(a: seq<FieldAccumulator>, b: seq<FieldAccumulator>) {
    Separate(a) && Separate(b) && forall i, j :: 0 <= i < |a| && 0 <= j < |b| ==> a[i] != b[j]
  }

  // ---- two counters that agree ------------------------------------------------

  function MismatchBits(row: Row, rules: seq<Rule>): (bits: seq<bool>)
    requires |row| == |rules|
  {
    seq(|row|, f requires 0 <= f < |row| => Mismatch(rules[f].normalize, row[f]))
  }

  function Trues(bits: seq<bool>, n: nat): nat
    requires n <= |bits|
  {
    if n == 0 then 0 else Trues(bits, n - 1) + Bit(bits[n - 1])
  }

  /** How many of a row's first `n` fields mismatch. */
  function MismatchesUpTo(row: Row, rules: seq<Rule>, n: nat): nat
    requires n <= |row| == |rules|
  {
    Trues(MismatchBits(row, rules), n)
  }

  /** count_header_mismatches. */
  method CountHeaderMismatches(d: Doc, rules: seq<Rule>) returns (count: nat)
    requires |rules| == HEADER_FIELDS
    ensures count == MismatchesUpTo(HeaderRow(d), rules, HEADER_FIELDS)
  {
    count := 0;
    var f := 0;
    while f < HEADER_FIELDS
      invariant 0 <= f <= HEADER_FIELDS
      invariant count == MismatchesUpTo(HeaderRow(d), rules, f)
    {
      var truth, predicted, norm := d.truth[f], d.predicted[f], rules[f].normalize;
      if Present(truth) {
        if !Present(predicted) {
          count := count + 1;
        } else {
          var a, b := norm(truth.value), norm(predicted.value);
          if a.None? || b.None? || a != b { count := count + 1; }
        }
      }
      f := f + 1;
    }
  }

  function MismatchTotal(rows: seq<Row>, rules: seq<Rule>): nat
    requires Wide(rows, |rules|)
  {
    if rows == [] then 0
    else MismatchTotal(rows[..|rows| - 1], rules) + MismatchesUpTo(rows[|rows| - 1], rules, |rules|)
  }

  /** What one accumulator reports: present in the ground truth and not exactly matched. */
  function Gap(rows: seq<Row>, rules: seq<Rule>, f: nat): int
    requires Wide(rows, |rules|) && f < |rules|
  {
    Tally(Column(rows, f), rules[f]).truths - Tally(Column(rows, f), rules[f]).exact
  }

  function Gaps(rows: seq<Row>, rules: seq<Rule>): (r: seq<int>)
    requires Wide(rows, |rules|)
  {
    seq(|rules|, f requires 0 <= f < |rules| => Gap(rows, rules, f))
  }

  function SumUpTo(s: seq<int>, n: nat): int
    requires n <= |s|
  {
    if n == 0 then 0 else SumUpTo(s, n - 1) + s[n - 1]
  }

  function GapTotal(rows: seq<Row>, rules: seq<Rule>): int
    requires Wide(rows, |rules|)
  {
    SumUpTo(Gaps(rows, rules), |rules|)
  }

  lemma {:induction false} GapGrows(rows: seq<Row>, row: Row, rules: seq<Rule>, f: nat)
    requires Wide(rows, |rules|) && |row| == |rules| && f < |rules|
    ensures Wide(rows + [row], |rules|)
    ensures Gap(rows + [row], rules, f) == Gap(rows, rules, f) + Bit(Mismatch(rules[f].normalize, row[f]))
  {
    ColumnGrows(rows, row, f, rules[f]);
  }

  lemma {:induction false} SumOfBumped(before: seq<int>, after: seq<int>, bits: seq<bool>, n: nat)
    requires n <= |before| == |after| == |bits|
    requires forall i :: 0 <= i < n ==> after[i] == before[i] + Bit(bits[i])
    ensures SumUpTo(after, n) == SumUpTo(before, n) + Trues(bits, n)
  {
    if n > 0 { SumOfBumped(before, after, bits, n - 1); }
  }

  lemma {:induction false} GapsOfOneMore(rows: seq<Row>, row: Row, rules: seq<Rule>)
    requires Wide(rows, |rules|) && |row| == |rules|
    ensures Wide(rows + [row], |rules|)
    ensures GapTotal(rows + [row], rules) == GapTotal(rows, rules) + MismatchesUpTo(row, rules, |rules|)
  {
    var before, after, bits := Gaps(rows, rules), Gaps(rows + [row], rules), MismatchBits(row, rules);
    forall f | 0 <= f < |rules| ensures after[f] == before[f] + Bit(bits[f]) {
      GapGrows(rows, row, rules, f);
    }
    SumOfBumped(before, after, bits, |rules|);
  }

  lemma {:induction false} NoSum(s: seq<int>, n: nat)
    requires n <= |s| && forall i :: 0 <= i < |s| ==> s[i] == 0
    ensures SumUpTo(s, n) == 0
  {
    if n > 0 { NoSum(s, n - 1); }
  }

  lemma {:induction false} CountersAgree(rows: seq<Row>, rules: seq<Rule>)
    requires Wide(rows, |rules|)
    ensures MismatchTotal(rows, rules) == GapTotal(rows, rules)
  {
    if rows == [] {
      NoSum(Gaps(rows, rules), |rules|);
    } else {
      var init, row := rows[..|rows| - 1], rows[|rows| - 1];
      CountersAgree(init, rules);
      GapsOfOneMore(init, row, rules);
      assert rows == init + [row];
    }
  }

  /** Two counters written apart agree: the failure gallery's mismatches, summed over the
      documents, are the accumulators' (ground truth present - exact match), summed over the
      header fields. */
  lemma {:induction false} MismatchesAreTheGaps(docs: seq<Doc>, rules: seq<Rule>)
    requires |rules| == HEADER_FIELDS
    ensures MismatchTotal(HeaderRows(docs), rules) == GapTotal(HeaderRows(docs), rules)
  {
    CountersAgree(HeaderRows(docs), rules);
  }

  // ---- lines and calibration --------------------------------------------------

  lemma {:induction false} MatchedLinesAreLines(docs: seq<Doc>)
    ensures |LineRows(docs)| <= TruthLines(docs) && |LineRows(docs)| <= PredictedLines(docs)
  {
    if docs != [] {
      MatchedLinesAreLines(docs[..|docs| - 1]);
      var d := docs[|docs| - 1];
      var t, p := LineItems.Keys(LineDescriptions(d.truthLines)), LineItems.Keys(LineDescriptions(d.predictedLines));
      LineItems.AllPairs(t, p);
      Seqs.SmallerMultiset(LineItems.Common(t, p), multiset(t));
      Seqs.SmallerMultiset(LineItems.Common(t, p), multiset(p));
    }
  }

  /** The line-item rates are rates, and F1 lies between them. */
  lemma {:induction false} LineRatesAreRates(docs: seq<Doc>)
    ensures var p, r := SafeDiv(|LineRows(docs)|, PredictedLines(docs)), SafeDiv(|LineRows(docs)|, TruthLines(docs));
            && Unit(p) && Unit(r)
            && (F1(p, r).Some? ==> p.Some? && r.Some? && Between(F1(p, r).value, p.value, r.value))
  {
    MatchedLinesAreLines(docs);
    PartIsUnit(|LineRows(docs)|, PredictedLines(docs));
    PartIsUnit(|LineRows(docs)|, TruthLines(docs));
    F1IsBetween(SafeDiv(|LineRows(docs)|, PredictedLines(docs)), SafeDiv(|LineRows(docs)|, TruthLines(docs)));
  }

  /** How many confidences each field's accumulator keeps. */
  function ConfidencesIn(rows: seq<Row>, rules: seq<Rule>): (r: seq<int>)
    requires Wide(rows, |rules|)
    ensures |r| == |rules| && forall f :: 0 <= f < |rules| ==> r[f] == |Tally(Column(rows, f), rules[f]).confidences|
  {
    seq(|rules|, f requires 0 <= f < |rules| => |Tally(Column(rows, f), rules[f]).confidences|)
  }

  function Confidences(rows: seq<Row>, rules: seq<Rule>): int
    requires Wide(rows, |rules|)
  {
    SumUpTo(ConfidencesIn(rows, rules), |rules|)
  }

  /** How many calibration pairs each field of a row adds. */
  function CalibratedIn(row: Row, rules: seq<Rule>): (r: seq<int>)
    requires |row| == |rules|
  {
    seq(|rules|, f requires 0 <= f < |rules| => |CalibratedBy(rules[f], row[f])|)
  }

  lemma {:induction false} CalibratedAddUp(row: Row, rules: seq<Rule>, n: nat)
    requires n <= |row| == |rules|
    ensures |RowCalibrated(row, rules, n)| == SumUpTo(CalibratedIn(row, rules), n)
  {
    if n > 0 { CalibratedAddUp(row, rules, n - 1); }
  }

  lemma {:induction false} SumsAdd(a: seq<int>, b: seq<int>, c: seq<int>, n: nat)
    requires n <= |a| == |b| == |c| && forall i :: 0 <= i < n ==> c[i] == a[i] + b[i]
    ensures SumUpTo(c, n) == SumUpTo(a, n) + SumUpTo(b, n)
  {
    if n > 0 { SumsAdd(a, b, c, n - 1); }
  }

  lemma {:induction false} ConfidencesOfField(rows: seq<Row>, row: Row, rules: seq<Rule>, f: nat)
    requires Wide(rows, |rules|) && |row| == |rules| && f < |rules|
    ensures Wide(rows + [row], |rules|)
    ensures |Tally(Column(rows + [row], f), rules[f]).confidences|
         == |Tally(Column(rows, f), rules[f]).confidences| + |CalibratedBy(rules[f], row[f])|
  {
    ColumnGrows(rows, row, f, rules[f]);
  }

  lemma {:induction false} ConfidencesGrow(rows: seq<Row>, row: Row, rules: seq<Rule>)
    requires Wide(rows, |rules|) && |row| == |rules|
    ensures Wide(rows + [row], |rules|)
    ensures Confidences(rows + [row], rules) == Confidences(rows, rules) + |RowCalibrated(row, rules, |rules|)|
  {
    forall f | 0 <= f < |rules|
      ensures ConfidencesIn(rows + [row], rules)[f] == ConfidencesIn(rows, rules)[f] + CalibratedIn(row, rules)[f]
    {
      ConfidencesOfField(rows, row, rules, f);
    }
    SumsAdd(ConfidencesIn(rows, rules), CalibratedIn(row, rules), ConfidencesIn(rows + [row], rules), |rules|);
    CalibratedAddUp(row, rules, |rules|);
  }

  lemma {:induction false} ConfidencesJoin(rows: seq<Row>, more: seq<Row>, rules: seq<Rule>)
    requires Wide(rows, |rules|) && Wide(more, |rules|)
    ensures Confidences(rows + more, rules) == Confidences(rows, rules) + |RowsCalibrated(more, rules)|
  {
    if more == [] {
      assert rows + more == rows;
    } else {
      var init := more[..|more| - 1];
      ConfidencesJoin(rows, init, rules);
      ConfidencesGrow(rows + init, more[|more| - 1], rules);
      Seqs.TakeOneMore(more, |more| - 1);
      assert more[..|more|] == more;
      Seqs.Associate(rows, init, [more[|more| - 1]]);
    }
  }

  /** Every confidence the accumulators keep is calibrated exactly once: none is dropped on the
      normalizers' failure path, and none counted twice. */
  lemma {:induction false} EveryConfidenceIsCalibrated(docs: seq<Doc>, rules: Rules)
    requires Complete(rules)
    ensures |AllCalibrated(docs, rules)|
         == Confidences(HeaderRows(docs), rules.header) + Confidences(LineRows(docs), rules.line)
  {
    if docs == [] {
      assert HeaderRows(docs) == [];
      NoSum(ConfidencesIn([], rules.header), HEADER_FIELDS);
      NoSum(ConfidencesIn([], rules.line), LINE_FIELDS);
    } else {
      var init, d := docs[..|docs| - 1], docs[|docs| - 1];
      EveryConfidenceIsCalibrated(init, rules);
      RowsGrow(init, d);
      Seqs.TakeOneMore(docs, |docs| - 1);
      assert docs[..|docs|] == docs;
      ConfidencesGrow(HeaderRows(init), HeaderRow(d), rules.header);
      ConfidencesJoin(LineRows(init), LineRowsOf(d, MatchesOf(d)), rules.line);
    }
  }
}
