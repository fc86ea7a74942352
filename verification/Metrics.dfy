/** Field metrics of an evaluation run (packages/evals/evals/metrics.py), with real numbers for
    floats and the field normalizers as given functions that may fail. */
module Metrics {
  import opened Wrappers
  import Descriptions

  datatype Value = Num(n: real) | Text(s: string)

  type Raw = Option<string>

  type Normalizer = string -> Option<Value>

  /** One field of one document, or of one matched line. */
  datatype Obs = Obs(truth: Raw, predicted: Raw, confidence: Option<real>)

  datatype Calibrated = Calibrated(confidence: real, correct: bool)

  /** `_FieldAccumulator` as a value. */
  datatype Field = Field(
    truths: nat, predictions: nat, both: nat, exact: nat, errors: seq<real>, within: nat, confidences: seq<real>)

  const NO_FIELD := Field(0, 0, 0, 0, [], 0, [])

  datatype Rule = Rule(normalize: Normalizer, numeric: bool, tolerance: real)

  /** bool(raw and raw.strip()) */
  predicate Present(raw: Raw) {
    raw.Some? && exists i :: 0 <= i < |raw.value| && !Descriptions.IsSpace(raw.value[i])
  }

  predicate BothPresent(o: Obs) {
    Present(o.truth) && Present(o.predicted)
  }

  /** Both present, both normalize, and to the same value. */
  predicate Exact(norm: Normalizer, o: Obs) {
    BothPresent(o) && norm(o.truth.value).Some? && norm(o.truth.value) == norm(o.predicted.value)
  }

  /** The ground truth has the field and the prediction does not agree. */
  predicate Mismatch(norm: Normalizer, o: Obs) {
    Present(o.truth) && !Exact(norm, o)
  }

  function AbsError(rule: Rule, o: Obs): Option<real> {
    if !BothPresent(o) || !rule.numeric then None
    else
      match (rule.normalize(o.truth.value), rule.normalize(o.predicted.value))
      case (Some(Num(a)), Some(Num(b))) => Some(if a >= b then a - b else b - a)
      case _ => None
  }

  function Listed<T>(x: Option<T>): seq<T> {
    if x.Some? then [x.value] else []
  }

  function Bit(b: bool): nat {
    if b then 1 else 0
  }

  function Add(f: Field, rule: Rule, o: Obs): Field {
    var e := AbsError(rule, o);
    Field(f.truths + Bit(Present(o.truth)), f.predictions + Bit(Present(o.predicted)),
          f.both + Bit(BothPresent(o)), f.exact + Bit(Exact(rule.normalize, o)),
          f.errors + Listed(e), f.within + Bit(e.Some? && e.value <= rule.tolerance),
          f.confidences + if BothPresent(o) then Listed(o.confidence) else [])
  }

  function Tally(obs: seq<Obs>, rule: Rule): Field {
    if obs == [] then NO_FIELD else Add(Tally(obs[..|obs| - 1], rule), rule, obs[|obs| - 1])
  }

  function CalibratedBy(rule: Rule, o: Obs): seq<Calibrated> {
    if BothPresent(o) && o.confidence.Some? then [Calibrated(o.confidence.value, Exact(rule.normalize, o))] else []
  }

  class FieldAccumulator {
    var truths: nat
    var predictions: nat
    var both: nat
    var exact: nat
    var errors: seq<real>
    var within: nat
    var confidences: seq<real>

    function View(): Field
      reads this
    {
      Field(truths, predictions, both, exact, errors, within, confidences)
    }

    constructor ()
      ensures View() == NO_FIELD
    {
      truths, predictions, both, exact, errors, within, confidences := 0, 0, 0, 0, [], 0, [];
    }

    /** `_accumulate_field`; `calibrated` is what it appends to the calibration pairs. */
    method Accumulate(rule: Rule, o: Obs) returns (calibrated: seq<Calibrated>)
      modifies this
      ensures View() == Add(old(View()), rule, o)
      ensures calibrated == CalibratedBy(rule, o)
    {
      calibrated := [];
      var truthPresent, predictedPresent := Present(o.truth), Present(o.predicted);
      if truthPresent { truths := truths + 1; }
      if predictedPresent { predictions := predictions + 1; }
      if !(truthPresent && predictedPresent) { return; }
      both := both + 1;
      if o.confidence.Some? { confidences := confidences + [o.confidence.value]; }
      var a, b := rule.normalize(o.truth.value), rule.normalize(o.predicted.value);
      if a.None? || b.None? {
        if o.confidence.Some? { calibrated := [Calibrated(o.confidence.value, false)]; }
        return;
      }
      var isMatch := a == b;
      if isMatch { exact := exact + 1; }
      if o.confidence.Some? { calibrated := [Calibrated(o.confidence.value, isMatch)]; }
      if rule.numeric && a.value.Num? && b.value.Num? {
        var x, y := a.value.n, b.value.n;
        var diff := if x >= y then x - y else y - x;
        errors := errors + [diff];
        if diff <= rule.tolerance { within := within + 1; }
      }
    }
  }

  /** Exact matches are true positives, which are present on both sides; errors are measured and
      confidences kept only there. */
  lemma {:induction false} CountsAreOrdered(obs: seq<Obs>, rule: Rule)
    ensures var f := Tally(obs, rule);
            && f.exact <= f.both <= f.truths <= |obs| && f.both <= f.predictions <= |obs|
            && f.within <= |f.errors| <= f.both && |f.confidences| <= f.both
            && f.truths + f.predictions - f.both <= |obs|
  {
    if obs != [] { CountsAreOrdered(obs[..|obs| - 1], rule); }
  }

  // ---- rates ------------------------------------------------------------------

  function SafeDiv(a: nat, b: nat): Option<real> {
    if b == 0 then None else Some(a as real / b as real)
  }

  function HarmonicMean(a: real, b: real): real
    requires a + b != 0.0
  {
    2.0 * a * b / (a + b)
  }

  function F1(precision: Option<real>, recall: Option<real>): Option<real> {
    if precision.None? || recall.None? || precision.value + recall.value == 0.0 then None
    else Some(HarmonicMean(precision.value, recall.value))
  }

  predicate Unit(r: Option<real>) {
    r.Some? ==> 0.0 <= r.value <= 1.0
  }

  /** A ratio is the number that gives the numerator back. */
  lemma {:induction false} RatioCompares(x: real, y: real, k: real)
    requires y > 0.0
    ensures x / y <= k <==> x <= k * y
    ensures x / y >= k <==> x >= k * y
  {
    var q := x / y;
    assert q * y == x;
    if q > k { Stretch(q, k, y); }
    if q < k { Stretch(k, q, y); }
  }

  lemma {:induction false} Stretch(a: real, b: real, y: real)
    requires a > b && y > 0.0
    ensures a * y > b * y
  {
  }

  lemma {:induction false} PartIsUnit(a: nat, b: nat)
    requires a <= b
    ensures Unit(SafeDiv(a, b))
    ensures b > 0 ==> (SafeDiv(a, b).value == 0.0 <==> a == 0) && (SafeDiv(a, b).value == 1.0 <==> a == b)
  {
    if b > 0 {
      RatioCompares(a as real, b as real, 0.0);
      RatioCompares(a as real, b as real, 1.0);
    }
  }

  predicate Between(x: real, a: real, b: real) {
    if a <= b then a <= x <= b else b <= x <= a
  }

  lemma {:induction false} HarmonicMeanOfOrdered(low: real, high: real)
    requires 0.0 <= low <= high && low + high > 0.0
    ensures low <= HarmonicMean(low, high) <= high
    ensures HarmonicMean(high, low) == HarmonicMean(low, high)
  {
    Scale(low, high, low);
    Scale(low, high, high);
    var x := 2.0 * low * high;
    assert low * (low + high) == low * low + low * high;
    assert high * (low + high) == high * low + high * high;
    assert 2.0 * high * low == x;
    RatioCompares(x, low + high, low);
    RatioCompares(x, low + high, high);
  }

  lemma {:induction false} Scale(a: real, b: real, k: real)
    requires a <= b && k >= 0.0
    ensures k * a <= k * b
  {
  }

  lemma {:induction false} F1IsBetween(p: Option<real>, r: Option<real>)
    requires (p.Some? ==> p.value >= 0.0) && (r.Some? ==> r.value >= 0.0)
    ensures F1(p, r).Some? ==> p.Some? && r.Some? && Between(F1(p, r).value, p.value, r.value)
    ensures F1(p, r).None? <==> p.None? || r.None? || (p.value == 0.0 && r.value == 0.0)
  {
    if F1(p, r).Some? {
      if p.value <= r.value {
        HarmonicMeanOfOrdered(p.value, r.value);
      } else {
        HarmonicMeanOfOrdered(r.value, p.value);
      }
    }
  }

  function Sum(s: seq<real>): real {
    if s == [] then 0.0 else Sum(s[..|s| - 1]) + s[|s| - 1]
  }

  function Mean(s: seq<real>): Option<real> {
    if s == [] then None else Some(Sum(s) / |s| as real)
  }

  lemma {:induction false} SumIsBounded(s: seq<real>, low: real, high: real)
    requires forall x <- s :: low <= x <= high
    ensures low * |s| as real <= Sum(s) <= high * |s| as real
  {
    if s != [] {
      var init := s[..|s| - 1];
      forall x <- init
        ensures low <= x <= high
      {
        assert x in s;
      }
      SumIsBounded(init, low, high);
      assert s[|s| - 1] in s && |s| as real == |init| as real + 1.0;
      assert low * |s| as real == low * |init| as real + low;
      assert high * |s| as real == high * |init| as real + high;
    }
  }

  lemma {:induction false} MeanIsBetween(s: seq<real>, low: real, high: real)
    requires forall x <- s :: low <= x <= high
    ensures Mean(s).Some? <==> s != []
    ensures s != [] ==> low <= Mean(s).value <= high
  {
    if s != [] {
      SumIsBounded(s, low, high);
      RatioCompares(Sum(s), |s| as real, low);
      RatioCompares(Sum(s), |s| as real, high);
    }
  }

  /** `_finalize_field`'s rates. */
  datatype Rates = Rates(
    n: nat, precision: Option<real>, recall: Option<real>, f1: Option<real>, exactRate: Option<real>,
    meanError: Option<real>, withinRate: Option<real>, meanConfidence: Option<real>)

  function Finalize(f: Field): Rates {
    var p, r := SafeDiv(f.both, f.predictions), SafeDiv(f.both, f.truths);
    Rates(f.truths, p, r, F1(p, r), SafeDiv(f.exact, f.truths),
          Mean(f.errors), SafeDiv(f.within, |f.errors|), Mean(f.confidences))
  }

  lemma {:induction false} FinalizedRates(f: Field)
    requires f.exact <= f.both <= f.truths && f.both <= f.predictions && f.within <= |f.errors|
    ensures var m := Finalize(f);
            && Unit(m.precision) && Unit(m.recall) && Unit(m.exactRate) && Unit(m.withinRate)
            && (m.f1.Some?
                ==> m.precision.Some? && m.recall.Some? && Between(m.f1.value, m.precision.value, m.recall.value))
            && (m.f1.None? <==> f.predictions == 0 || f.truths == 0 || f.both == 0)
            && (m.exactRate.Some? ==> m.recall.Some? && m.exactRate.value <= m.recall.value)
  {
    PartIsUnit(f.both, f.predictions);
    PartIsUnit(f.both, f.truths);
    PartIsUnit(f.exact, f.truths);
    PartIsUnit(f.within, |f.errors|);
    F1IsBetween(SafeDiv(f.both, f.predictions), SafeDiv(f.both, f.truths));
    if f.truths > 0 { SmallerPart(f.exact, f.both, f.truths); }
  }

  lemma {:induction false} SmallerPart(a: nat, b: nat, n: nat)
    requires a <= b && n > 0
    ensures a as real / n as real <= b as real / n as real
  {
    RatioCompares(b as real, n as real, b as real / n as real);
    RatioCompares(a as real, n as real, b as real / n as real);
  }

  /** Over any list of observations every rate is in [0, 1], F1 lies between precision and recall
      and is missing exactly when nothing was predicted, expected or found, and the exact-match
      rate is at most the recall. */
  lemma {:induction false} RatesAreRates(obs: seq<Obs>, rule: Rule)
    ensures var f := Tally(obs, rule); var m := Finalize(f);
            && Unit(m.precision) && Unit(m.recall) && Unit(m.f1) && Unit(m.exactRate) && Unit(m.withinRate)
            && (m.f1.Some?
                ==> m.precision.Some? && m.recall.Some? && Between(m.f1.value, m.precision.value, m.recall.value))
            && (m.f1.None? <==> f.predictions == 0 || f.truths == 0 || f.both == 0)
            && (m.exactRate.Some? ==> m.recall.Some? && m.exactRate.value <= m.recall.value)
  {
    CountsAreOrdered(obs, rule);
    FinalizedRates(Tally(obs, rule));
  }
}
