/** The report of an evaluation run: what compute_metrics returns
    (packages/evals/evals/metrics.py), from the accumulators on. */
module EvalReport {
  import opened Wrappers
  import opened Metrics
  import opened Evaluation
  import opened Statistics

  datatype LineRates = LineRates(
    precision: Option<real>, recall: Option<real>, f1: Option<real>, truthLines: nat, predictedLines: nat, matched: nat)

  /** EvalMetrics. */
  datatype Report = Report(
    documents: nat, header: seq<Rates>, line: seq<Rates>, calibration: seq<Bucket>, lineItems: LineRates,
    meanLatency: Option<real>, p50: Option<real>, p95: Option<real>, p99: Option<real>, cost: real)

  function MeanOfInts(values: seq<int>): Option<real> {
    Mean(Seqs.Map((v: int) => v as real, values))
  }

  function LineRatesOf(truthLines: nat, predictedLines: nat, matched: nat): LineRates {
    var p, r := SafeDiv(matched, predictedLines), SafeDiv(matched, truthLines);
    LineRates(p, r, F1(p, r), truthLines, predictedLines, matched)
  }

  /** compute_metrics: each field's rates are those of its column over all documents, matched lines
      included, and the buckets, line totals, latencies and cost are those of all documents. */
  method ComputeMetrics(docs: seq<Doc>, rules: Rules) returns (report: Report)
    requires Complete(rules)
    ensures report.documents == |docs|
    ensures |report.header| == HEADER_FIELDS && forall f :: 0 <= f < HEADER_FIELDS ==>
        report.header[f] == Finalize(Tally(Column(HeaderRows(docs), f), rules.header[f]))
    ensures |report.line| == LINE_FIELDS && forall f :: 0 <= f < LINE_FIELDS ==>
        report.line[f] == Finalize(Tally(Column(LineRows(docs), f), rules.line[f]))
    ensures |report.calibration| == BUCKETS && forall i :: 0 <= i < BUCKETS ==>
        report.calibration[i] == BucketOf(AllCalibrated(docs, rules), i)
    ensures report.lineItems == LineRatesOf(TruthLines(docs), PredictedLines(docs), |LineRows(docs)|)
    ensures report.meanLatency == MeanOfInts(Latencies(docs)) && report.cost == TotalCost(docs)
    ensures report.p50 == Percentile(Latencies(docs), 0.5) && report.p95 == Percentile(Latencies(docs), 0.95)
    ensures report.p99 == Percentile(Latencies(docs), 0.99)
  {
    var header, line, totals := AccumulateAll(docs, rules);
    var buckets := BucketCalibration(totals.calibrated);
    report := Report(|docs|, Seqs.Map(Finalize, Views(header)), Seqs.Map(Finalize, Views(line)), buckets,
                     LineRatesOf(totals.truthLines, totals.predictedLines, totals.matched),
                     MeanOfInts(totals.latencies),
                     Percentile(totals.latencies, 0.5), Percentile(totals.latencies, 0.95),
                     Percentile(totals.latencies, 0.99),
                     totals.cost);
  }
}
