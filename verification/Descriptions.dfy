/** Line descriptions in normal form (normalize_description in
    packages/extractors/extractors/normalize.py), on ASCII text. */
module Descriptions {
  import Seqs
  import Sorting

  predicate IsSpace(c: char) {
    c == ' ' || 9 as char <= c <= 13 as char || 28 as char <= c <= 31 as char
  }

  predicate IsAlnum(c: char) {
    'a' <= c <= 'z' || '0' <= c <= '9'
  }

  function Lower(c: char): char {
    if 'A' <= c <= 'Z' then c - 'A' + 'a' else c
  }

  /** Lower case, then every character outside [a-z0-9\s] becomes a space. */
  function CleanChar(c: char): (r: char)
  {
    var l := Lower(c);
    if IsAlnum(l) || IsSpace(l) then l else ' '
  }

  function Clean(s: string): string {
    seq(|s|, i requires 0 <= i < |s| => CleanChar(s[i]))
  }

  /** Where the last run of non-space characters begins. */
  function WordStart(s: string): (k: nat)
    ensures k <= |s|
    ensures forall i :: k <= i < |s| ==> !IsSpace(s[i])
    ensures 0 < k ==> IsSpace(s[k - 1])
  {
    if s == [] then 0 else if IsSpace(s[|s| - 1]) then |s| else WordStart(s[..|s| - 1])
  }

  /** str.split(): the maximal runs of non-space characters. */
  function Words(s: string): seq<string> {
    if s == [] then []
    else if IsSpace(s[|s| - 1]) then Words(s[..|s| - 1])
    else Words(s[..WordStart(s)]) + [s[WordStart(s)..]]
  }

  function Join(words: seq<string>): string {
    if words == [] then ""
    else if |words| == 1 then words[0]
    else Join(words[..|words| - 1]) + " " + words[|words| - 1]
  }

  function Expand(w: string): string {
    if w == "asy" then "assembly" else if w == "ea" then "each" else if w == "ft" then "feet"
    else if w == "gal" then "gallon" else if w == "in" then "inch" else if w == "lb" then "pound"
    else if w == "lbs" then "pound" else if w == "no" then "number" else if w == "pc" then "piece"
    else if w == "pcs" then "piece" else if w == "pkg" then "package" else if w == "qty" then "quantity"
    else if w == "std" then "standard" else if w == "ss" then "stainless" else if w == "w" then "with"
    else w
  }

  function ExpandAll(words: seq<string>): seq<string> {
    Seqs.Map(Expand, words)
  }

  /** Lexicographic order, as Python compares strings. */
  predicate LexLe(a: string, b: string) {
    a == [] || (b != [] && (a[0] < b[0] || (a[0] == b[0] && LexLe(a[1..], b[1..]))))
  }

  function Tokens(raw: string): seq<string> {
    ExpandAll(Words(Clean(raw)))
  }

  function Normalize(raw: string): string {
    if raw == "" then "" else Join(Sorting.Sort(Tokens(raw), LexLe))
  }

  // ---- the order of words -----------------------------------------------------

  lemma {:induction false} LexTotal(a: string, b: string)
    ensures LexLe(a, b) || LexLe(b, a)
    ensures LexLe(a, b) && LexLe(b, a) ==> a == b
  {
    if a != [] && b != [] {
      LexTotal(a[1..], b[1..]);
      assert a == [a[0]] + a[1..] && b == [b[0]] + b[1..];
    }
  }

  lemma {:induction false} LexTransitive(a: string, b: string, c: string)
    requires LexLe(a, b) && LexLe(b, c)
    ensures LexLe(a, c)
  {
    if a != [] && a[0] == b[0] && b[0] == c[0] { LexTransitive(a[1..], b[1..], c[1..]); }
  }

  lemma {:induction false} LexIsTotalOrder()
    ensures Sorting.TotalOrder(LexLe)
  {
    forall a, b
      ensures LexLe(a, b) || LexLe(b, a)
      ensures LexLe(a, b) && LexLe(b, a) ==> a == b
    {
      LexTotal(a, b);
    }
    forall a, b, c | LexLe(a, b) && LexLe(b, c)
      ensures LexLe(a, c)
    {
      LexTransitive(a, b, c);
    }
  }

  // ---- splitting --------------------------------------------------------------

  predicate EndsInSpace(s: string) {
    s == "" || IsSpace(s[|s| - 1])
  }

  lemma {:induction false} WordStartIs(s: string, k: nat)
    requires k <= |s| && (k > 0 ==> IsSpace(s[k - 1])) && forall i :: k <= i < |s| ==> !IsSpace(s[i])
    ensures WordStart(s) == k
  {
  }

  predicate IsWord(w: string) {
    w != "" && forall i :: 0 <= i < |w| ==> !IsSpace(w[i])
  }

  /** A last word after a space, or after nothing. */
  lemma {:induction false} LastWord(front: string, w: string)
    requires EndsInSpace(front) && IsWord(w)
    ensures Words(front + w) == Words(front) + [w]
  {
    var s := front + w;
    WordStartIs(s, |front|);
    assert s[..|front|] == front && s[|front|..] == w;
  }

  lemma {:induction false} LastSpace(s: string, sp: char)
    requires IsSpace(sp)
    ensures Words(s + [sp]) == Words(s)
  {
    assert (s + [sp])[..|s|] == s;
  }

  lemma {:induction false} WordsAroundSpace(a: string, sp: char, front: string, last: char)
    requires IsSpace(sp) && IsSpace(last) && Words(a + [sp] + front) == Words(a) + Words(front)
    ensures Words(a + [sp] + (front + [last])) == Words(a) + Words(front + [last])
  {
    LastSpace(a + [sp] + front, last);
    LastSpace(front, last);
    Seqs.Associate(a + [sp], front, [last]);
  }

  lemma {:induction false} WordsAroundWord(a: string, sp: char, front: string, w: string)
    requires IsSpace(sp) && EndsInSpace(front) && IsWord(w) && Words(a + [sp] + front) == Words(a) + Words(front)
    ensures Words(a + [sp] + (front + w)) == Words(a) + Words(front + w)
  {
    LastWord(a + [sp] + front, w);
    LastWord(front, w);
    Seqs.Associate(a + [sp], front, w);
    Seqs.Associate(Words(a), Words(front), [w]);
  }

  /** A space ends a word: splitting distributes over it. */
  lemma {:induction false} WordsAround(a: string, sp: char, b: string)
    requires IsSpace(sp)
    ensures Words(a + [sp] + b) == Words(a) + Words(b)
    decreases |b|
  {
    if b == [] {
      assert a + [sp] + b == a + [sp];
      LastSpace(a, sp);
      assert Words(a) + Words(b) == Words(a);
    } else if IsSpace(b[|b| - 1]) {
      WordsAround(a, sp, b[..|b| - 1]);
      WordsAroundSpace(a, sp, b[..|b| - 1], b[|b| - 1]);
      Seqs.SplitLast(b);
    } else {
      var k := WordStart(b);
      WordsAround(a, sp, b[..k]);
      WordsAroundWord(a, sp, b[..k], b[k..]);
      assert b[..k] + b[k..] == b;
    }
  }

  lemma {:induction false} CleanJoins(a: string, b: string)
    ensures Clean(a + b) == Clean(a) + Clean(b)
  {
  }

  lemma {:induction false} CleanAround(a: string, sp: char, b: string)
    requires IsSpace(sp)
    ensures Words(Clean(a + [sp] + b)) == Words(Clean(a)) + Words(Clean(b))
  {
    CleanJoins(a + [sp], b);
    CleanJoins(a, [sp]);
    assert Clean([sp]) == [sp];
    WordsAround(Clean(a), sp, Clean(b));
  }

  function CleanWords(words: seq<string>): seq<string> {
    if words == [] then [] else CleanWords(words[..|words| - 1]) + Words(Clean(words[|words| - 1]))
  }

  /** Cleaning and splitting goes word by word. */
  lemma {:induction false} WordByWord(raw: string)
    ensures Words(Clean(raw)) == CleanWords(Words(raw))
    decreases |raw|
  {
    if raw != [] {
      var n := |raw| - 1;
      if IsSpace(raw[n]) {
        assert raw == raw[..n] + [raw[n]] + [];
        CleanAround(raw[..n], raw[n], []);
        WordByWord(raw[..n]);
      } else {
        var k := WordStart(raw);
        var last := raw[k..];
        assert (Words(raw[..k]) + [last])[..|Words(raw[..k])|] == Words(raw[..k]);
        if k == 0 {
          assert raw[..0] == [] && last == raw;
        } else {
          assert raw == raw[..k - 1] + [raw[k - 1]] + last;
          CleanAround(raw[..k - 1], raw[k - 1], last);
          assert raw[..k][..k - 1] == raw[..k - 1];
          WordByWord(raw[..k]);
          assert raw[..k] == raw[..k - 1] + [raw[k - 1]] + [];
          CleanAround(raw[..k - 1], raw[k - 1], []);
        }
      }
    }
  }

  // ---- reordering the words ---------------------------------------------------

  lemma {:induction false} CleanWordsStep(words: seq<string>, w: string)
    ensures CleanWords(words + [w]) == CleanWords(words) + Words(Clean(w))
  {
    assert (words + [w])[..|words|] == words;
  }

  lemma {:induction false} CleanWordsJoinOne(a: seq<string>, init: seq<string>, w: string)
    requires CleanWords(a + init) == CleanWords(a) + CleanWords(init)
    ensures CleanWords(a + (init + [w])) == CleanWords(a) + CleanWords(init + [w])
  {
    CleanWordsStep(a + init, w);
    CleanWordsStep(init, w);
    Seqs.Associate(a, init, [w]);
    Seqs.Associate(CleanWords(a), CleanWords(init), Words(Clean(w)));
  }

  lemma {:induction false} CleanWordsJoin(a: seq<string>, b: seq<string>)
    ensures CleanWords(a + b) == CleanWords(a) + CleanWords(b)
  {
    if b == [] {
      assert a + b == a;
      assert CleanWords(a) + CleanWords(b) == CleanWords(a);
    } else {
      var n := |b| - 1;
      CleanWordsJoin(a, b[..n]);
      CleanWordsJoinOne(a, b[..n], b[n]);
      Seqs.SplitLast(b);
    }
  }

  lemma {:induction false} CleanWordsAt(before: seq<string>, w: string, after: seq<string>)
    ensures CleanWords(before + [w] + after) == CleanWords(before) + Words(Clean(w)) + CleanWords(after)
    ensures CleanWords(before + after) == CleanWords(before) + CleanWords(after)
  {
    CleanWordsJoin(before + [w], after);
    CleanWordsStep(before, w);
    CleanWordsJoin(before, after);
  }

  lemma {:induction false} CleanWordsTakesOut(s: seq<string>, k: nat)
    requires k < |s|
    ensures multiset(CleanWords(s)) == multiset(CleanWords(s[..k] + s[k + 1..])) + multiset(Words(Clean(s[k])))
  {
    assert s == s[..k] + [s[k]] + s[k + 1..];
    CleanWordsAt(s[..k], s[k], s[k + 1..]);
  }

  lemma {:induction false} CleanWordsPermute(a: seq<string>, b: seq<string>)
    requires multiset(a) == multiset(b)
    ensures multiset(CleanWords(a)) == multiset(CleanWords(b))
  {
    assert |multiset(a)| == |a| && |multiset(b)| == |b|;
    if a != [] {
      var n := |a| - 1;
      assert a[n] in multiset(b);
      var k :| 0 <= k < |b| && b[k] == a[n];
      Seqs.TakeOut(a, n);
      Seqs.TakeOut(b, k);
      CleanWordsPermute(a[..n] + a[n + 1..], b[..k] + b[k + 1..]);
      CleanWordsTakesOut(a, n);
      CleanWordsTakesOut(b, k);
    }
  }

  // ---- the normal form --------------------------------------------------------

  predicate IsToken(w: string) {
    w != "" && forall c <- w :: IsAlnum(c)
  }

  lemma {:induction false} WordsAreTokens(s: string)
    requires forall c <- s :: IsAlnum(c) || IsSpace(c)
    ensures forall w <- Words(s) :: IsToken(w)
    decreases |s|
  {
    if s != [] {
      WordsAreTokens(s[..|s| - 1]);
      if !IsSpace(s[|s| - 1]) { WordsAreTokens(s[..WordStart(s)]); }
    }
  }

  lemma {:induction false} ExpandGivesTokens(w: string)
    requires IsToken(w)
    ensures IsToken(Expand(w))
  {
  }

  /** No expansion is itself an abbreviation. */
  lemma {:induction false} ExpandOnce(w: string)
    ensures Expand(Expand(w)) == Expand(w)
  {
  }

  lemma {:induction false} TokensAreTokens(raw: string)
    ensures forall w <- Tokens(raw) :: IsToken(w) && Expand(w) == w
  {
    WordsAreTokens(Clean(raw));
    forall w <- Words(Clean(raw))
      ensures IsToken(Expand(w)) && Expand(Expand(w)) == Expand(w)
    {
      ExpandGivesTokens(w);
      ExpandOnce(w);
    }
  }

  lemma {:induction false} NoSpaceNoBreak(w: string)
    requires forall c <- w :: IsAlnum(c)
    ensures WordStart(w) == 0
  {
    if w != [] {
      assert w[|w| - 1] in w;
      NoSpaceNoBreak(w[..|w| - 1]);
    }
  }

  lemma {:induction false} OneWord(w: string)
    requires IsToken(w)
    ensures Words(w) == [w] && Clean(w) == w
  {
    NoSpaceNoBreak(w);
    assert w[|w| - 1] in w;
    assert w[..0] == [] && w[0..] == w;
    assert forall i :: 0 <= i < |w| ==> w[i] in w;
  }

  /** Splitting undoes joining. */
  lemma {:induction false} WordsOfJoin(words: seq<string>)
    requires forall w <- words :: IsToken(w)
    ensures Words(Join(words)) == words
  {
    if words != [] {
      var n := |words| - 1;
      OneWord(words[n]);
      assert words == words[..n] + [words[n]];
      if n > 0 {
        WordsOfJoin(words[..n]);
        assert Join(words) == Join(words[..n]) + [' '] + words[n];
        WordsAround(Join(words[..n]), ' ', words[n]);
      }
    }
  }

  lemma {:induction false} CleanOfJoin(words: seq<string>)
    requires forall w <- words :: IsToken(w)
    ensures Clean(Join(words)) == Join(words)
  {
    if words != [] { OneWord(words[|words| - 1]); }
    if |words| > 1 {
      var n := |words| - 1;
      CleanOfJoin(words[..n]);
      CleanJoins(Join(words[..n]) + " ", words[n]);
      CleanJoins(Join(words[..n]), " ");
    }
  }

  lemma {:induction false} SortedTokens(raw: string)
    ensures var t := Sorting.Sort(Tokens(raw), LexLe);
            && (forall w <- t :: IsToken(w) && Expand(w) == w) && Sorting.Sorted(t, LexLe)
            && multiset(t) == multiset(Tokens(raw)) && Words(Join(t)) == t && Clean(Join(t)) == Join(t)
  {
    LexIsTotalOrder();
    Sorting.SortSorts(Tokens(raw), LexLe);
    TokensAreTokens(raw);
    var t := Sorting.Sort(Tokens(raw), LexLe);
    forall w <- t
      ensures IsToken(w) && Expand(w) == w
    {
      assert w in multiset(Tokens(raw));
    }
    WordsOfJoin(t);
    CleanOfJoin(t);
  }

  /** Two descriptions have one normal form exactly when they have the same tokens, each as
      often: punctuation, case and order are all that is forgotten. */
  lemma {:induction false} SameFormSameTokens(a: string, b: string)
    ensures Normalize(a) == Normalize(b) <==> multiset(Tokens(a)) == multiset(Tokens(b))
  {
    SortedTokens(a);
    SortedTokens(b);
    LexIsTotalOrder();
    Sorting.SortIsCanonical(Tokens(a), Tokens(b), LexLe);
    NormalizeIs(a);
    NormalizeIs(b);
  }

  /** The empty description is no special case. */
  lemma {:induction false} NormalizeIs(raw: string)
    ensures Normalize(raw) == Join(Sorting.Sort(Tokens(raw), LexLe))
  {
    if raw == "" {
      assert Clean(raw) == [];
      assert Tokens(raw) == [];
    }
  }

  /** Reordering the whitespace-separated words of a description leaves its normal form. */
  lemma {:induction false} WordOrderIsForgotten(a: string, b: string)
    requires multiset(Words(a)) == multiset(Words(b))
    ensures Normalize(a) == Normalize(b)
  {
    WordByWord(a);
    WordByWord(b);
    CleanWordsPermute(Words(a), Words(b));
    Seqs.MapPermutes(Expand, Words(Clean(a)), Words(Clean(b)));
    SameFormSameTokens(a, b);
  }

  /** A normal form is its own normal form. */
  lemma {:induction false} NormalFormIsNormal(raw: string)
    ensures Normalize(Normalize(raw)) == Normalize(raw)
  {
    SortedTokens(raw);
    NormalizeIs(raw);
    var t := Sorting.Sort(Tokens(raw), LexLe);
    NormalizeIs(Join(t));
    assert Tokens(Join(t)) == t;
    LexIsTotalOrder();
    Sorting.SortKeepsSorted(t, LexLe);
  }
}
