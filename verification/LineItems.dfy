/** Greedy matching of line items by normalized description (match_line_items in
    packages/evals/evals/metrics.py). A side is the sequence of its lines' keys. */
module LineItems {
  import opened Wrappers
  import Descriptions
  import Seqs

  datatype Match = Match(truth: nat, predicted: nat)

  /** The key of a line; a line whose description is missing or empty has none. */
  function KeyOf(description: Option<string>): Option<string> {
    if description.None? || description.value == "" then None
    else Some(Descriptions.Normalize(description.value))
  }

  function Keys(descriptions: seq<Option<string>>): (r: seq<Option<string>>)
    ensures |r| == |descriptions|
  {
    Seqs.Map(KeyOf, descriptions)
  }

  /** The number of a line among those of its own key. */
  function Nth<K(==)>(keys: seq<K>, i: nat): nat
    requires i < |keys|
  {
    Seqs.Count(keys, i, keys[i])
  }

  /** The lines of key `k` among the first `n`, in order. */
  function Positions<K(==)>(keys: seq<K>, n: nat, k: K): seq<nat>
    requires n <= |keys|
  {
    if n == 0 then [] else Positions(keys, n - 1, k) + if keys[n - 1] == k then [n - 1] else []
  }

  /** What the greedy algorithm pairs: the n-th line of a key with the n-th line of that key. */
  ghost predicate Paired<K>(truth: seq<Option<K>>, predicted: seq<Option<K>>, m: Match) {
    && m.truth < |truth| && m.predicted < |predicted|
    && truth[m.truth].Some? && truth[m.truth] == predicted[m.predicted]
    && Nth(truth, m.truth) == Nth(predicted, m.predicted)
  }

  /** Keys present on both sides, as often as on the rarer side. */
  function Common<K(==)>(truth: seq<Option<K>>, predicted: seq<Option<K>>): multiset<Option<K>> {
    (multiset(truth) * multiset(predicted))[None := 0]
  }

  // ---- counting ---------------------------------------------------------------

  lemma {:induction false} PositionsAre<K>(keys: seq<K>, n: nat, k: K)
    requires n <= |keys|
    ensures |Positions(keys, n, k)| == Seqs.Count(keys, n, k)
    ensures forall j :: 0 <= j < |Positions(keys, n, k)| ==>
        var p := Positions(keys, n, k)[j]; p < n && keys[p] == k && Nth(keys, p) == j
    ensures forall i :: 0 <= i < n && keys[i] == k ==>
        Nth(keys, i) < Seqs.Count(keys, n, k) && Positions(keys, n, k)[Nth(keys, i)] == i
  {
    if n > 0 { PositionsAre(keys, n - 1, k); }
  }

  /** A line is known by its key and its number within it. */
  lemma {:induction false} NthIsInjective<K>(keys: seq<K>, i: nat, j: nat)
    requires i < |keys| && j < |keys| && keys[i] == keys[j] && Nth(keys, i) == Nth(keys, j)
    ensures i == j
  {
    PositionsAre(keys, |keys|, keys[i]);
  }

  // ---- the algorithm ----------------------------------------------------------

  function Partner<K(==)>(truth: seq<Option<K>>, predicted: seq<Option<K>>, i: nat): seq<Match>
    requires i < |truth|
  {
    var candidates := Positions(predicted, |predicted|, truth[i]);
    if truth[i].Some? && Nth(truth, i) < |candidates| then [Match(i, candidates[Nth(truth, i)])] else []
  }

  /** The first `n` lines of the ground truth, each with its partner where it has one. */
  function GreedyPairs<K(==)>(truth: seq<Option<K>>, predicted: seq<Option<K>>, n: nat): seq<Match>
    requires n <= |truth|
  {
    if n == 0 then [] else GreedyPairs(truth, predicted, n - 1) + Partner(truth, predicted, n - 1)
  }

  lemma {:induction false} PartnerIsPaired<K>(truth: seq<Option<K>>, predicted: seq<Option<K>>, i: nat, m: Match)
    requires i < |truth|
    ensures m in Partner(truth, predicted, i) <==> m.truth == i && Paired(truth, predicted, m)
  {
    PositionsAre(predicted, |predicted|, truth[i]);
  }

  lemma {:induction false} GreedyPairsArePaired<K>(truth: seq<Option<K>>, predicted: seq<Option<K>>, n: nat, m: Match)
    requires n <= |truth|
    ensures m in GreedyPairs(truth, predicted, n) <==> m.truth < n && Paired(truth, predicted, m)
  {
    if n > 0 {
      GreedyPairsArePaired(truth, predicted, n - 1, m);
      PartnerIsPaired(truth, predicted, n - 1, m);
    }
  }

  lemma {:induction false} CommonGrows<K>(truth: seq<Option<K>>, predicted: seq<Option<K>>, i: nat)
    requires i < |truth|
    ensures |Common(truth[..i + 1], predicted)| == |Common(truth[..i], predicted)| + |Partner(truth, predicted, i)|
  {
    var k := truth[i];
    assert truth[..i + 1] == truth[..i] + [k];
    Seqs.CountIsMultiplicity(truth, i, k);
    Seqs.CountIsMultiplicity(predicted, |predicted|, k);
    assert predicted[..|predicted|] == predicted;
    PositionsAre(predicted, |predicted|, k);
    assert Common(truth[..i + 1], predicted)
        == Common(truth[..i], predicted) + (if Partner(truth, predicted, i) == [] then multiset{} else multiset{k});
  }

  lemma {:induction false} PairsCount<K>(truth: seq<Option<K>>, predicted: seq<Option<K>>, n: nat)
    requires n <= |truth|
    ensures |GreedyPairs(truth, predicted, n)| == |Common(truth[..n], predicted)|
  {
    if n == 0 {
      assert Common(truth[..0], predicted) == multiset{};
    } else {
      var i := n - 1;
      PairsCount(truth, predicted, i);
      CommonGrows(truth, predicted, i);
      assert GreedyPairs(truth, predicted, n) == GreedyPairs(truth, predicted, i) + Partner(truth, predicted, i);
      assert truth[..i + 1] == truth[..n];
    }
  }

  /** The matches, in ground-truth order: exactly the pairs of n-th lines of a key, and as many
      as the two sides have in common. */
  method MatchLineItems(truth: seq<Option<string>>, predicted: seq<Option<string>>) returns (matches: seq<Match>)
    ensures matches == GreedyPairs(Keys(truth), Keys(predicted), |truth|)
    ensures forall m :: m in matches <==> Paired(Keys(truth), Keys(predicted), m)
    ensures |matches| == |Common(Keys(truth), Keys(predicted))|
  {
    matches := MatchKeys(Keys(truth), Keys(predicted));
    AllPairs(Keys(truth), Keys(predicted));
  }

  method MatchKeys(truth: seq<Option<string>>, predicted: seq<Option<string>>) returns (matches: seq<Match>)
    ensures matches == GreedyPairs(truth, predicted, |truth|)
  {
    var byKey := CollectByKey(predicted);
    matches := [];
    var used: set<nat> := {};
    var i := 0;
    while i < |truth|
      invariant 0 <= i <= |truth|
      invariant matches == GreedyPairs(truth, predicted, i)
      invariant UsedAre(truth, predicted, used, i)
    {
      var pair;
      if truth[i].Some? { assert Collected(predicted, |predicted|, byKey, truth[i].value); }
      pair, used := MatchOne(truth[i], byKey, used, i, truth, predicted);
      matches := matches + pair;
      i := i + 1;
      assert GreedyPairs(truth, predicted, i)
             == GreedyPairs(truth, predicted, i - 1) + Partner(truth, predicted, i - 1);
    }
  }

  /** One ground-truth line: its first candidate not yet used, if there is one. */
  method MatchOne(key: Option<string>, byKey: map<string, seq<nat>>, before: set<nat>, i: nat,
                  ghost tk: seq<Option<string>>, ghost pk: seq<Option<string>>)
    returns (pair: seq<Match>, used: set<nat>)
    requires i < |tk| && tk[i] == key && UsedAre(tk, pk, before, i)
    requires key.Some? ==> Collected(pk, |pk|, byKey, key.value)
    ensures pair == Partner(tk, pk, i) && UsedAre(tk, pk, used, i + 1)
  {
    pair, used := [], before;
    if key.Some? {
      var candidates := if key.value in byKey then byKey[key.value] else [];
      var found := FirstUnused(candidates, used);
      UsedUpTo(tk, pk, used, i, found);
      if found < |candidates| {
        pair, used := [Match(i, candidates[found])], used + {candidates[found]};
      }
    }
  }

  lemma {:induction false} AllPairs<K>(truth: seq<Option<K>>, predicted: seq<Option<K>>)
    ensures forall m :: m in GreedyPairs(truth, predicted, |truth|) <==> Paired(truth, predicted, m)
    ensures |GreedyPairs(truth, predicted, |truth|)| == |Common(truth, predicted)|
  {
    forall m
      ensures m in GreedyPairs(truth, predicted, |truth|) <==> Paired(truth, predicted, m)
    {
      GreedyPairsArePaired(truth, predicted, |truth|, m);
    }
    PairsCount(truth, predicted, |truth|);
    assert truth[..|truth|] == truth;
  }

  ghost predicate Collected(keys: seq<Option<string>>, n: nat, byKey: map<string, seq<nat>>, k: string)
    requires n <= |keys|
  {
    Positions(keys, n, Some(k)) == if k in byKey then byKey[k] else []
  }

  /** The lines of each key, in order; a line without a key is left out. */
  method CollectByKey(keys: seq<Option<string>>) returns (byKey: map<string, seq<nat>>)
    ensures forall k :: Collected(keys, |keys|, byKey, k)
  {
    byKey := map[];
    var i := 0;
    while i < |keys|
      invariant 0 <= i <= |keys|
      invariant forall k :: Collected(keys, i, byKey, k)
    {
      var key := keys[i];
      ghost var before := byKey;
      if key.Some? {
        byKey := byKey[key.value := (if key.value in byKey then byKey[key.value] else []) + [i]];
      }
      i := i + 1;
      forall k
        ensures Collected(keys, i, byKey, k)
      {
        assert Collected(keys, i - 1, before, k);
      }
    }
  }

  /** The inner loop: the first candidate not yet used, or |candidates|. */
  method FirstUnused(candidates: seq<nat>, used: set<nat>) returns (j: nat)
    ensures j <= |candidates|
    ensures j < |candidates| ==> candidates[j] !in used
    ensures forall l :: 0 <= l < j ==> candidates[l] in used
  {
    j := 0;
    while j < |candidates| && candidates[j] in used
      invariant j <= |candidates|
      invariant forall l :: 0 <= l < j ==> candidates[l] in used
    {
      j := j + 1;
    }
  }

  /** After `i` lines, the first so many candidates of each key are used. */
  ghost predicate UsedAre<K>(truth: seq<Option<K>>, predicted: seq<Option<K>>, used: set<nat>, i: nat)
    requires i <= |truth|
  {
    forall p :: 0 <= p < |predicted| && predicted[p].Some? ==>
      (p in used <==> Nth(predicted, p) < Seqs.Count(truth, i, predicted[p]))
  }

  lemma {:induction false} UsedUpTo<K>(truth: seq<Option<K>>, predicted: seq<Option<K>>, used: set<nat>, i: nat,
          found: nat)
    requires i < |truth| && truth[i].Some? && UsedAre(truth, predicted, used, i)
    requires var c := Positions(predicted, |predicted|, truth[i]);
             && found <= |c| && (found < |c| ==> c[found] !in used) && forall l :: 0 <= l < found ==> c[l] in used
    ensures var c := Positions(predicted, |predicted|, truth[i]);
            if found < |c| then Partner(truth, predicted, i) == [Match(i, c[found])]
                && UsedAre(truth, predicted, used + {c[found]}, i + 1)
            else Partner(truth, predicted, i) == [] && UsedAre(truth, predicted, used, i + 1)
  {
    var c := Positions(predicted, |predicted|, truth[i]);
    PositionsAre(predicted, |predicted|, truth[i]);
    if found < |c| {
      assert Nth(predicted, c[found]) == found;
      if found > 0 { assert c[found - 1] in used && Nth(predicted, c[found - 1]) == found - 1; }
      assert Nth(truth, i) == found;
    } else if found > 0 {
      assert c[found - 1] in used && Nth(predicted, c[found - 1]) == found - 1;
    }
  }

  // ---- optimality -------------------------------------------------------------

  /** A one-to-one matching of lines with equal keys. */
  ghost predicate Matching<K>(truth: seq<Option<K>>, predicted: seq<Option<K>>, ms: seq<Match>) {
    && (forall a :: 0 <= a < |ms| ==>
          ms[a].truth < |truth| && ms[a].predicted < |predicted|
          && truth[ms[a].truth].Some? && truth[ms[a].truth] == predicted[ms[a].predicted])
    && (forall a, b :: 0 <= a < b < |ms| ==> ms[a].truth != ms[b].truth && ms[a].predicted != ms[b].predicted)
  }

  ghost predicate DistinctBelow(index: seq<nat>, n: nat) {
    && (forall a :: 0 <= a < |index| ==> index[a] < n)
    && (forall a, b :: 0 <= a < b < |index| ==> index[a] != index[b])
  }

  function At<K>(keys: seq<K>, index: seq<nat>): (r: seq<K>)
    requires forall a :: 0 <= a < |index| ==> index[a] < |keys|
  {
    seq(|index|, a requires 0 <= a < |index| => keys[index[a]])
  }

  /** Without the entry for the last line, the lines are those of the keys before it. */
  lemma {:induction false} LastLineTaken<K>(keys: seq<K>, index: seq<nat>, a: nat)
    requires keys != [] && DistinctBelow(index, |keys|) && a < |index| && index[a] == |keys| - 1
    ensures var rest := index[..a] + index[a + 1..];
            && DistinctBelow(rest, |keys| - 1)
            && At(keys[..|keys| - 1], rest) == At(keys, index)[..a] + At(keys, index)[a + 1..]
  {
  }

  lemma {:induction false} DistinctLinesAreFew<K>(keys: seq<K>, index: seq<nat>)
    requires DistinctBelow(index, |keys|)
    ensures multiset(At(keys, index)) <= multiset(keys)
  {
    if keys != [] {
      var n := |keys| - 1;
      Seqs.SplitLast(keys);
      if a :| 0 <= a < |index| && index[a] == n {
        LastLineTaken(keys, index, a);
        DistinctLinesAreFew(keys[..n], index[..a] + index[a + 1..]);
        Seqs.TakeOut(At(keys, index), a);
        assert multiset(keys) == multiset(keys[..n]) + multiset{keys[n]};
      } else {
        DistinctLinesAreFew(keys[..n], index);
        assert At(keys[..n], index) == At(keys, index);
        assert multiset(keys) == multiset(keys[..n]) + multiset{keys[n]};
      }
    }
  }

  lemma {:induction false} PartnerIsNew<K>(truth: seq<Option<K>>, predicted: seq<Option<K>>, i: nat, old': Match,
          last: Match)
    requires i < |truth| && old' in GreedyPairs(truth, predicted, i) && last in Partner(truth, predicted, i)
    ensures Paired(truth, predicted, last) && old'.truth != last.truth && old'.predicted != last.predicted
  {
    PartnerIsPaired(truth, predicted, i, last);
    GreedyPairsArePaired(truth, predicted, i, old');
    if old'.predicted == last.predicted { NthIsInjective(truth, old'.truth, last.truth); }
  }

  lemma {:induction false} GreedyIsMatching<K>(truth: seq<Option<K>>, predicted: seq<Option<K>>, n: nat)
    requires n <= |truth|
    ensures Matching(truth, predicted, GreedyPairs(truth, predicted, n))
  {
    if n > 0 {
      var init, last := GreedyPairs(truth, predicted, n - 1), Partner(truth, predicted, n - 1);
      GreedyIsMatching(truth, predicted, n - 1);
      if last != [] {
        PartnerIsPaired(truth, predicted, n - 1, last[0]);
        forall a | 0 <= a < |init|
          ensures init[a].truth != last[0].truth && init[a].predicted != last[0].predicted
        {
          PartnerIsNew(truth, predicted, n - 1, init[a], last[0]);
        }
        MatchingGrows(truth, predicted, init, last[0]);
      }
    }
  }

  lemma {:induction false} MatchingGrows<K>(truth: seq<Option<K>>, predicted: seq<Option<K>>, ms: seq<Match>,
          last: Match)
    requires Matching(truth, predicted, ms) && Paired(truth, predicted, last)
    requires forall a :: 0 <= a < |ms| ==> ms[a].truth != last.truth && ms[a].predicted != last.predicted
    ensures Matching(truth, predicted, ms + [last])
  {
  }

  lemma {:induction false} MatchingIsCommon<K>(truth: seq<Option<K>>, predicted: seq<Option<K>>, ms: seq<Match>)
    requires Matching(truth, predicted, ms)
    ensures |ms| <= |Common(truth, predicted)|
  {
    var ti := Seqs.Map((m: Match) => m.truth, ms);
    var pi := Seqs.Map((m: Match) => m.predicted, ms);
    DistinctLinesAreFew(truth, ti);
    DistinctLinesAreFew(predicted, pi);
    var keys := At(truth, ti);
    assert keys == At(predicted, pi);
    assert None !in keys;
    assert multiset(keys) <= Common(truth, predicted);
    Seqs.SmallerMultiset(multiset(keys), Common(truth, predicted));
    assert |multiset(keys)| == |ms|;
  }

  /** The greedy matching is one-to-one, and no one-to-one matching of equal keys is larger. */
  lemma {:induction false} GreedyIsOptimal<K>(truth: seq<Option<K>>, predicted: seq<Option<K>>, ms: seq<Match>)
    requires Matching(truth, predicted, ms)
    ensures Matching(truth, predicted, GreedyPairs(truth, predicted, |truth|))
    ensures |ms| <= |GreedyPairs(truth, predicted, |truth|)|
  {
    GreedyIsMatching(truth, predicted, |truth|);
    PairsCount(truth, predicted, |truth|);
    assert truth[..|truth|] == truth;
    MatchingIsCommon(truth, predicted, ms);
  }

  /** How many lines match does not depend on the order of either list. */
  lemma {:induction false} CountForgetsOrder(truth: seq<Option<string>>, predicted: seq<Option<string>>,
                          truth': seq<Option<string>>, predicted': seq<Option<string>>)
    requires multiset(truth) == multiset(truth') && multiset(predicted) == multiset(predicted')
    ensures |GreedyPairs(Keys(truth), Keys(predicted), |truth|)|
            == |GreedyPairs(Keys(truth'), Keys(predicted'), |truth'|)|
  {
    Seqs.MapPermutes(KeyOf, truth, truth');
    Seqs.MapPermutes(KeyOf, predicted, predicted');
    PairsCount(Keys(truth), Keys(predicted), |truth|);
    PairsCount(Keys(truth'), Keys(predicted'), |truth'|);
    assert Keys(truth)[..|truth|] == Keys(truth) && Keys(truth')[..|truth'|] == Keys(truth');
  }

  /** The same description but for case, punctuation and the order of its words. */
  ghost predicate SameWords(a: Option<string>, b: Option<string>) {
    if a.None? || b.None? then a == b
    else
      (a.value == "" <==> b.value == "")
      && multiset(Descriptions.Words(a.value)) == multiset(Descriptions.Words(b.value))
  }

  lemma {:induction false} SameWordsSameKeys(a: seq<Option<string>>, b: seq<Option<string>>)
    requires |a| == |b| && forall i :: 0 <= i < |a| ==> SameWords(a[i], b[i])
    ensures Keys(a) == Keys(b)
  {
    forall i | 0 <= i < |a|
      ensures KeyOf(a[i]) == KeyOf(b[i])
    {
      assert SameWords(a[i], b[i]);
      if a[i].Some? { Descriptions.WordOrderIsForgotten(a[i].value, b[i].value); }
    }
  }

  /** ... nor do the matches depend on the order of the words of any description, on either side. */
  lemma {:induction false} MatchesForgetWordOrder(truth: seq<Option<string>>, predicted: seq<Option<string>>,
                                                  truth': seq<Option<string>>, predicted': seq<Option<string>>)
    requires |truth| == |truth'| && forall i :: 0 <= i < |truth| ==> SameWords(truth[i], truth'[i])
    requires |predicted| == |predicted'| && forall i :: 0 <= i < |predicted| ==> SameWords(predicted[i], predicted'[i])
    ensures GreedyPairs(Keys(truth), Keys(predicted), |truth|) == GreedyPairs(Keys(truth'), Keys(predicted'), |truth'|)
  {
    SameWordsSameKeys(truth, truth');
    SameWordsSameKeys(predicted, predicted');
  }
}
