/** Latency percentiles and calibration buckets (packages/evals/evals/metrics.py), over reals. */
module Statistics {
  import opened Wrappers
  import opened Metrics
  import Seqs
  import Sorting

  // ---- percentiles ------------------------------------------------------------

  predicate IntLe(a: int, b: int) {
    a <= b
  }

  function Ordered(values: seq<int>): (r: seq<int>) {
    Sorting.Sort(values, IntLe)
  }

  function Share(p: real, whole: real): real {
    p * whole
  }

  lemma {:induction false} ShareGrows(p: real, q: real, whole: real)
    requires p <= q && whole >= 0.0
    ensures Share(p, whole) <= Share(q, whole)
  {
    assert (q - p) * whole >= 0.0;
  }

  lemma {:induction false} ShareEnds(whole: real)
    ensures Share(0.0, whole) == 0.0 && Share(1.0, whole) == whole
  {
  }

  /** Linear interpolation at a fractional index. */
  function Interpolate(s: seq<int>, rank: real): real
    requires s != [] && 0.0 <= rank <= (|s| - 1) as real
  {
    var low := rank.Floor;
    var high := if low + 1 <= |s| - 1 then low + 1 else |s| - 1;
    s[low] as real + Share(rank - low as real, (s[high] - s[low]) as real)
  }

  function Rank(n: nat, p: real): (r: real)
    requires n > 0 && 0.0 <= p <= 1.0
  {
    var last := (n - 1) as real;
    ShareEnds(last);
    ShareGrows(0.0, p, last);
    ShareGrows(p, 1.0, last);
    Share(p, last)
  }

  function OrderedPercentile(s: seq<int>, p: real): real
    requires s != [] && 0.0 <= p <= 1.0
  {
    if |s| == 1 then s[0] as real else Interpolate(s, Rank(|s|, p))
  }

  /** `_percentile`; None for no values. */
  function Percentile(values: seq<int>, p: real): Option<real>
    requires 0.0 <= p <= 1.0
  {
    if values == [] then None
    else
      OrderedIsSorted(values);
      Some(OrderedPercentile(Ordered(values), p))
  }

  lemma {:induction false} OrderedIsSorted(values: seq<int>)
    ensures |Ordered(values)| == |values| && multiset(Ordered(values)) == multiset(values)
    ensures forall i, j :: 0 <= i <= j < |values| ==> Ordered(values)[i] <= Ordered(values)[j]
  {
    Sorting.SortSorts(values, IntLe);
    assert forall i, j :: 0 <= i < j < |values| ==> IntLe(Ordered(values)[i], Ordered(values)[j]);
  }

  lemma {:induction false} PartOfStep(a: real, b: real, f: real)
    requires a <= b && 0.0 <= f <= 1.0
    ensures a <= a + Share(f, b - a) <= b
  {
    ShareEnds(b - a);
    ShareGrows(0.0, f, b - a);
    ShareGrows(f, 1.0, b - a);
  }

  lemma {:induction false} InterpolateIsInCell(s: seq<int>, rank: real)
    requires s != [] && 0.0 <= rank <= (|s| - 1) as real
    requires forall i, j :: 0 <= i <= j < |s| ==> s[i] <= s[j]
    ensures var low := rank.Floor;
            && 0 <= low < |s| && s[low] as real <= Interpolate(s, rank)
            && Interpolate(s, rank) <= s[if low + 1 <= |s| - 1 then low + 1 else low] as real
  {
    var low := rank.Floor;
    var high := if low + 1 <= |s| - 1 then low + 1 else |s| - 1;
    PartOfStep(s[low] as real, s[high] as real, rank - low as real);
    assert (s[high] - s[low]) as real == s[high] as real - s[low] as real;
  }

  lemma {:induction false} InterpolateIsMonotone(s: seq<int>, r: real, t: real)
    requires s != [] && 0.0 <= r <= t <= (|s| - 1) as real
    requires forall i, j :: 0 <= i <= j < |s| ==> s[i] <= s[j]
    ensures Interpolate(s, r) <= Interpolate(s, t)
  {
    if r.Floor < t.Floor {
      InterpolateIsInCell(s, r);
      InterpolateIsInCell(s, t);
      assert s[r.Floor + 1] <= s[t.Floor];
    } else {
      var low := r.Floor;
      var high := if low + 1 <= |s| - 1 then low + 1 else |s| - 1;
      var gap := (s[high] - s[low]) as real;
      assert t.Floor == low;
      ShareGrows(r - low as real, t - low as real, gap);
      assert Interpolate(s, r) == s[low] as real + Share(r - low as real, gap);
      assert Interpolate(s, t) == s[low] as real + Share(t - low as real, gap);
    }
  }

  /** A percentile does not depend on the order of the values. */
  lemma {:induction false} PercentileForgetsOrder(a: seq<int>, b: seq<int>, p: real)
    requires 0.0 <= p <= 1.0 && multiset(a) == multiset(b)
    ensures Percentile(a, p) == Percentile(b, p)
  {
    Sorting.SortIsCanonical(a, b, IntLe);
    assert Ordered(a) == Ordered(b);
    assert |multiset(a)| == |a| && |multiset(b)| == |b|;
  }

  lemma {:induction false} RanksAreOrdered(n: nat, p: real, q: real)
    requires n > 0 && 0.0 <= p <= q <= 1.0
    ensures Rank(n, p) <= Rank(n, q)
  {
    ShareGrows(p, q, (n - 1) as real);
  }

  lemma {:induction false} OrderedPercentileGrows(s: seq<int>, p: real, q: real)
    requires s != [] && 0.0 <= p <= q <= 1.0 && forall i, j :: 0 <= i <= j < |s| ==> s[i] <= s[j]
    ensures OrderedPercentile(s, p) <= OrderedPercentile(s, q)
  {
    if |s| > 1 {
      RanksAreOrdered(|s|, p, q);
      InterpolateIsMonotone(s, Rank(|s|, p), Rank(|s|, q));
    }
  }

  /** A percentile grows with p, across interpolation cells, so p50 <= p95 <= p99. */
  lemma {:induction false} PercentileIsMonotone(values: seq<int>, p: real, q: real)
    requires values != [] && 0.0 <= p <= q <= 1.0
    ensures Percentile(values, p).value <= Percentile(values, q).value
  {
    OrderedIsSorted(values);
    OrderedPercentileGrows(Ordered(values), p, q);
  }

  lemma {:induction false} SortedEnds(values: seq<int>, v: int)
    requires v in values
    ensures var s := Ordered(values); s != [] && s[0] <= v <= s[|s| - 1] && s[0] in values && s[|s| - 1] in values
  {
    var s := Ordered(values);
    OrderedIsSorted(values);
    assert v in multiset(s) && s[0] in multiset(values) && s[|s| - 1] in multiset(values);
    var k :| 0 <= k < |s| && s[k] == v;
    assert s[0] <= s[k] <= s[|s| - 1];
  }

  /** From 0 to 1 it goes from the least value to the greatest; in between it stays between. */
  lemma {:induction false} PercentileIsBetween(values: seq<int>, p: real, v: int)
    requires v in values && 0.0 <= p <= 1.0
    ensures exists least, most ::
        && least in values && most in values && least <= v <= most
        && Percentile(values, 0.0) == Some(least as real) && Percentile(values, 1.0) == Some(most as real)
        && least as real <= Percentile(values, p).value <= most as real
  {
    SortedEnds(values, v);
    PercentileIsMonotone(values, 0.0, p);
    PercentileIsMonotone(values, p, 1.0);
    var least, most := Ordered(values)[0], Ordered(values)[|Ordered(values)| - 1];
    assert least in values && most in values;
  }

  // ---- calibration ------------------------------------------------------------

  const BUCKETS := 10

  datatype Bucket = Bucket(low: real, high: real, n: nat, meanConfidence: Option<real>, accuracy: Option<real>)

  predicate InBucket(i: nat, c: real) {
    (i as real / 10.0 <= c < (i + 1) as real / 10.0) || (i == BUCKETS - 1 && c == 1.0)
  }

  function Filter(pairs: seq<Calibrated>, i: nat): seq<Calibrated> {
    if pairs == [] then []
    else
      Filter(pairs[..|pairs| - 1], i)
      + if InBucket(i, pairs[|pairs| - 1].confidence) then [pairs[|pairs| - 1]] else []
  }

  function Corrects(pairs: seq<Calibrated>): (n: nat)
    ensures n <= |pairs|
  {
    if pairs == [] then 0 else Corrects(pairs[..|pairs| - 1]) + Bit(pairs[|pairs| - 1].correct)
  }

  function ConfidencesOf(pairs: seq<Calibrated>): seq<real> {
    Seqs.Map((p: Calibrated) => p.confidence, pairs)
  }

  function BucketOf(pairs: seq<Calibrated>, i: nat): Bucket {
    var members := Filter(pairs, i);
    Bucket(i as real / 10.0, (i + 1) as real / 10.0, |members|,
           Mean(ConfidencesOf(members)),
           SafeDiv(Corrects(members), |members|))
  }

  /** `_bucket_calibration`. */
  method BucketCalibration(pairs: seq<Calibrated>) returns (buckets: seq<Bucket>)
    ensures |buckets| == BUCKETS && forall i :: 0 <= i < BUCKETS ==> buckets[i] == BucketOf(pairs, i)
  {
    buckets := [];
    var i := 0;
    while i < BUCKETS
      invariant 0 <= i <= BUCKETS == 10 && |buckets| == i
      invariant forall k :: 0 <= k < i ==> buckets[k] == BucketOf(pairs, k)
    {
      var n, correct, sum := 0, 0, 0.0;
      var j := 0;
      while j < |pairs|
        invariant 0 <= j <= |pairs|
        invariant n == |Filter(pairs[..j], i)| && correct == Corrects(Filter(pairs[..j], i))
        invariant sum == Sum(ConfidencesOf(Filter(pairs[..j], i)))
      {
        Seqs.TakeOneMore(pairs, j);
        FilterOneMore(pairs[..j], pairs[j], i);
        if InBucket(i, pairs[j].confidence) {
          OneMoreMember(Filter(pairs[..j], i), pairs[j]);
          n, correct, sum := n + 1, correct + Bit(pairs[j].correct), sum + pairs[j].confidence;
        }
        j := j + 1;
      }
      assert pairs[..j] == pairs;
      var mean := if n == 0 then None else Some(sum / n as real);
      buckets := buckets + [Bucket(i as real / 10.0, (i + 1) as real / 10.0, n, mean, SafeDiv(correct, n))];
      i := i + 1;
    }
  }

  lemma {:induction false} FilterOneMore(pairs: seq<Calibrated>, p: Calibrated, i: nat)
    ensures Filter(pairs + [p], i) == if InBucket(i, p.confidence) then Filter(pairs, i) + [p] else Filter(pairs, i)
  {
    assert (pairs + [p])[..|pairs|] == pairs;
  }

  lemma {:induction false} OneMoreMember(members: seq<Calibrated>, p: Calibrated)
    ensures Corrects(members + [p]) == Corrects(members) + Bit(p.correct)
    ensures Sum(ConfidencesOf(members + [p])) == Sum(ConfidencesOf(members)) + p.confidence
  {
    assert (members + [p])[..|members|] == members;
    var all := ConfidencesOf(members + [p]);
    assert all == ConfidencesOf(members) + [p.confidence] && all[..|members|] == ConfidencesOf(members);
  }

  predicate InRange(c: real) {
    0.0 <= c <= 1.0
  }

  function Home(c: real): (i: nat)
    requires InRange(c)
  {
    if c == 1.0 then 9 else (10.0 * c).Floor
  }

  /** A confidence is in one bucket if it is in [0, 1], and in none otherwise. */
  lemma {:induction false} OneBucketEach(c: real, i: nat)
    requires i < BUCKETS
    ensures InBucket(i, c) <==> InRange(c) && i == Home(c)
  {
    assert InBucket(i, c) <==> (i as real <= 10.0 * c < (i + 1) as real || (i == 9 && c == 1.0));
  }

  function SumTo(f: nat -> nat, k: nat): nat {
    if k == 0 then 0 else SumTo(f, k - 1) + f(k - 1)
  }

  function Sizes(pairs: seq<Calibrated>): nat -> nat {
    i => |Filter(pairs, i)|
  }

  function CorrectSizes(pairs: seq<Calibrated>): nat -> nat {
    i => Corrects(Filter(pairs, i))
  }

  /** Members, and correct members, of the first `k` buckets. */
  function Members(pairs: seq<Calibrated>, k: nat): nat {
    SumTo(Sizes(pairs), k)
  }

  function CorrectMembers(pairs: seq<Calibrated>, k: nat): nat {
    SumTo(CorrectSizes(pairs), k)
  }

  lemma {:induction false} SumBumped(f: nat -> nat, g: nat -> nat, k: nat, home: nat, bump: nat)
    requires forall i :: 0 <= i < k ==> g(i) == f(i) + if i == home then bump else 0
    ensures SumTo(g, k) == SumTo(f, k) + if home < k then bump else 0
  {
    if k > 0 { SumBumped(f, g, k - 1, home, bump); }
  }

  lemma {:induction false} SumOfZeros(f: nat -> nat, k: nat)
    requires forall i :: 0 <= i < k ==> f(i) == 0
    ensures SumTo(f, k) == 0
  {
    if k > 0 { SumOfZeros(f, k - 1); }
  }

  function Usable(pairs: seq<Calibrated>): seq<Calibrated> {
    if pairs == [] then []
    else Usable(pairs[..|pairs| - 1]) + if InRange(pairs[|pairs| - 1].confidence) then [pairs[|pairs| - 1]] else []
  }

  lemma {:induction false} OneBucketGrows(pairs: seq<Calibrated>, p: Calibrated, i: nat)
    requires i < BUCKETS
    ensures |Filter(pairs + [p], i)| == |Filter(pairs, i)| + Bit(InRange(p.confidence) && Home(p.confidence) == i)
    ensures Corrects(Filter(pairs + [p], i))
         == Corrects(Filter(pairs, i)) + Bit(p.correct && InRange(p.confidence) && Home(p.confidence) == i)
  {
    OneBucketEach(p.confidence, i);
    FilterOneMore(pairs, p, i);
    OneMoreMember(Filter(pairs, i), p);
  }

  /** The one bucket a pair joins, or none. */
  function HomeOf(p: Calibrated): nat {
    if InRange(p.confidence) then Home(p.confidence) else BUCKETS
  }

  lemma {:induction false} OneMoreMemberInAll(pairs: seq<Calibrated>, p: Calibrated)
    ensures Members(pairs + [p], BUCKETS) == Members(pairs, BUCKETS) + Bit(InRange(p.confidence))
  {
    forall i | 0 <= i < BUCKETS
      ensures Sizes(pairs + [p])(i) == Sizes(pairs)(i) + if i == HomeOf(p) then 1 else 0
    {
      OneBucketGrows(pairs, p, i);
    }
    SumBumped(Sizes(pairs), Sizes(pairs + [p]), BUCKETS, HomeOf(p), 1);
  }

  lemma {:induction false} OneMoreCorrectInAll(pairs: seq<Calibrated>, p: Calibrated)
    ensures CorrectMembers(pairs + [p], BUCKETS)
            == CorrectMembers(pairs, BUCKETS) + Bit(p.correct && InRange(p.confidence))
  {
    forall i | 0 <= i < BUCKETS
      ensures CorrectSizes(pairs + [p])(i) == CorrectSizes(pairs)(i) + if i == HomeOf(p) then Bit(p.correct) else 0
    {
      OneBucketGrows(pairs, p, i);
    }
    SumBumped(CorrectSizes(pairs), CorrectSizes(pairs + [p]), BUCKETS, HomeOf(p), Bit(p.correct));
  }

  lemma {:induction false} UsableOneMore(pairs: seq<Calibrated>, p: Calibrated)
    ensures Usable(pairs + [p]) == if InRange(p.confidence) then Usable(pairs) + [p] else Usable(pairs)
    ensures Corrects(Usable(pairs + [p])) == Corrects(Usable(pairs)) + Bit(p.correct && InRange(p.confidence))
  {
    assert (pairs + [p])[..|pairs|] == pairs;
    OneMoreMember(Usable(pairs), p);
  }

  ghost predicate Partitioned(pairs: seq<Calibrated>) {
    Members(pairs, BUCKETS) == |Usable(pairs)| && CorrectMembers(pairs, BUCKETS) == Corrects(Usable(pairs))
  }

  lemma {:induction false} PartitionedOneMore(pairs: seq<Calibrated>, p: Calibrated)
    requires Partitioned(pairs)
    ensures Partitioned(pairs + [p])
  {
    OneMoreMemberInAll(pairs, p);
    OneMoreCorrectInAll(pairs, p);
    UsableOneMore(pairs, p);
    assert |Usable(pairs + [p])| == |Usable(pairs)| + Bit(InRange(p.confidence));
  }

  lemma {:induction false} AllUsable(pairs: seq<Calibrated>)
    requires forall i :: 0 <= i < |pairs| ==> InRange(pairs[i].confidence)
    ensures Usable(pairs) == pairs
  {
    if pairs != [] {
      AllUsable(pairs[..|pairs| - 1]);
      Seqs.SplitLast(pairs);
    }
  }

  /** The ten buckets partition the pairs whose confidence is in [0, 1]: bucket counts and
      bucket correct-counts sum to theirs, and a confidence outside [0, 1] is in no bucket. */
  lemma {:induction false} BucketsPartition(pairs: seq<Calibrated>)
    ensures Members(pairs, BUCKETS) == |Usable(pairs)|
    ensures CorrectMembers(pairs, BUCKETS) == Corrects(Usable(pairs))
    ensures Partitioned(pairs)
  {
    if pairs == [] {
      SumOfZeros(Sizes(pairs), BUCKETS);
      SumOfZeros(CorrectSizes(pairs), BUCKETS);
    } else {
      var n := |pairs| - 1;
      BucketsPartition(pairs[..n]);
      PartitionedOneMore(pairs[..n], pairs[n]);
      Seqs.SplitLast(pairs);
    }
  }

  lemma {:induction false} FilterIsInBucket(pairs: seq<Calibrated>, i: nat)
    requires i < BUCKETS
    ensures forall m <- Filter(pairs, i) ::
              InBucket(i, m.confidence) && i as real / 10.0 <= m.confidence <= (i + 1) as real / 10.0
  {
    if pairs != [] { FilterIsInBucket(pairs[..|pairs| - 1], i); }
  }

  /** A bucket's mean confidence lies within its edges and its accuracy is a rate, so its gap is
      at most its upper edge and at least its lower edge less one. */
  lemma {:induction false} BucketMeansAreInBounds(pairs: seq<Calibrated>, i: nat)
    requires i < BUCKETS
    ensures var b := BucketOf(pairs, i);
            && (b.meanConfidence.Some? <==> b.n > 0) && (b.accuracy.Some? <==> b.n > 0)
            && Unit(b.accuracy)
            && (b.n > 0 ==> b.low <= b.meanConfidence.value <= b.high)
  {
    var members := Filter(pairs, i);
    PartIsUnit(Corrects(members), |members|);
    FilterIsInBucket(pairs, i);
    MeanIsBetween(ConfidencesOf(members), i as real / 10.0, (i + 1) as real / 10.0);
  }
}
