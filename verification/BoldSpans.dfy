/** The **bold** convention both notifiers render: the matches of the pattern \*\*(.+?)\*\*
    (packages/notifiers/notifiers/telegram.py and email.py). */
module BoldSpans {
  import opened Wrappers

  datatype Span = Span(start: nat, end: nat)

  /** A text is its plain stretches and the groups of its matches. */
  datatype Piece = Plain(text: string) | Bold(text: string)

  predicate PairAt(text: string, k: nat) {
    k + 1 < |text| && text[k] == '*' && text[k + 1] == '*'
  }

  /** The pattern can match from i up to j + 2: two stars, at least one character, two stars. */
  ghost predicate Matches(text: string, i: nat, j: nat) {
    PairAt(text, i) && i + 3 <= j && PairAt(text, j)
  }

  function FindPair(text: string, from: nat): (k: nat)
    requires from <= |text|
    ensures from <= k <= |text|
    ensures k < |text| ==> PairAt(text, k)
    ensures forall i :: from <= i < k ==> !PairAt(text, i)
    decreases |text| - from
  {
    if from == |text| || PairAt(text, from) then from else FindPair(text, from + 1)
  }

  /** The next match at or after `from`. */
  function Next(text: string, from: nat): (m: Option<Span>)
    requires from <= |text|
  {
    var i := FindPair(text, from);
    if i + 3 > |text| then None
    else
      var j := FindPair(text, i + 3);
      if j == |text| then None else Some(Span(i, j + 2))
  }

  /** It is the leftmost match, and there the shortest; none only when the pattern cannot match. */
  lemma {:induction false} NextIsLeftmostShortest(text: string, from: nat)
    requires from <= |text|
    ensures Next(text, from).Some? ==>
        var m := Next(text, from).value;
        && Matches(text, m.start, m.end - 2)
        && (forall i, j :: from <= i && Matches(text, i, j) ==> m.start <= i)
        && (forall j :: Matches(text, m.start, j) ==> m.end - 2 <= j)
    ensures Next(text, from).None? ==> forall i, j :: from <= i ==> !Matches(text, i, j)
  {
    var i := FindPair(text, from);
    forall k, j | from <= k && Matches(text, k, j)
      ensures Next(text, from).Some? && i <= k
    {
      assert !(from <= k < i);
      var n := FindPair(text, i + 3);
      assert !(i + 3 <= j < n);
    }
  }

  /** Spans that lie one after the other, from `from` on. */
  predicate InOrder(text: string, from: nat, spans: seq<Span>)
    decreases |spans|
  {
    if spans == [] then from <= |text|
    else
      from <= spans[0].start && spans[0].start + 5 <= spans[0].end <= |text|
      && InOrder(text, spans[0].end, spans[1..])
  }

  /** What finditer yields. */
  function Spans(text: string, from: nat): (r: seq<Span>)
    requires from <= |text|
    ensures InOrder(text, from, r)
    decreases |text| - from
  {
    var m := Next(text, from);
    if m.None? then [] else [m.value] + Spans(text, m.value.end)
  }

  function PiecesOf(text: string, from: nat, spans: seq<Span>): seq<Piece>
    requires InOrder(text, from, spans)
    decreases |spans|
  {
    if spans == [] then [Plain(text[from..])]
    else [PlainBefore(text, from, spans[0]), BoldAt(text, spans[0])] + PiecesOf(text, spans[0].end, spans[1..])
  }

  function PlainBefore(text: string, from: nat, m: Span): Piece
    requires from <= m.start <= |text|
  {
    Plain(text[from..m.start])
  }

  function BoldAt(text: string, m: Span): Piece
    requires m.start + 5 <= m.end <= |text|
  {
    Bold(text[m.start + 2..m.end - 2])
  }

  function Pieces(text: string): seq<Piece> {
    PiecesOf(text, 0, Spans(text, 0))
  }

  function Source(p: Piece): string {
    match p
    case Plain(s) => s
    case Bold(s) => "**" + s + "**"
  }

  function SourceOf(pieces: seq<Piece>): string {
    if pieces == [] then "" else Source(pieces[0]) + SourceOf(pieces[1..])
  }

  function Words(pieces: seq<Piece>): string {
    if pieces == [] then "" else pieces[0].text + Words(pieces[1..])
  }

  /** `_strip_bold`: the pattern replaced by its group. */
  function StripBold(text: string): string {
    Words(Pieces(text))
  }

  lemma {:induction false} SpanSource(text: string, from: nat, m: Span)
    requires from <= m.start && m.start + 5 <= m.end <= |text| && Matches(text, m.start, m.end - 2)
    ensures text[from..] == Source(PlainBefore(text, from, m)) + (Source(BoldAt(text, m)) + text[m.end..])
  {
    var rest := text[m.end..];
    StarsAreSource(BoldAt(text, m));
    assert text[m.start..m.end] == Source(BoldAt(text, m));
    assert text[from..] == text[from..m.start] + (Source(BoldAt(text, m)) + rest);
  }

  lemma {:induction false} StarsAreSource(p: Piece)
    requires p.Bold?
    ensures Source(p) == "**" + p.text + "**"
  {
  }

  lemma {:induction false} SpansMatch(text: string, from: nat)
    requires from <= |text|
    ensures forall m <- Spans(text, from) :: m.start + 5 <= m.end <= |text| && Matches(text, m.start, m.end - 2)
    decreases |text| - from
  {
    NextIsLeftmostShortest(text, from);
    var m := Next(text, from);
    if m.Some? { SpansMatch(text, m.value.end); }
  }

  lemma {:induction false} OneSpanIsTheText(text: string, from: nat, spans: seq<Span>)
    requires InOrder(text, from, spans) && spans != [] && Matches(text, spans[0].start, spans[0].end - 2)
    requires SourceOf(PiecesOf(text, spans[0].end, spans[1..])) == text[spans[0].end..]
    ensures SourceOf(PiecesOf(text, from, spans)) == text[from..]
  {
    SpanSource(text, from, spans[0]);
  }

  lemma {:induction false} PiecesOfAreTheText(text: string, from: nat, spans: seq<Span>)
    requires InOrder(text, from, spans)
    requires forall m <- spans :: m.start + 5 <= m.end <= |text| && Matches(text, m.start, m.end - 2)
    ensures SourceOf(PiecesOf(text, from, spans)) == text[from..]
    decreases |spans|
  {
    if spans == [] {
      assert [Plain(text[from..])] + [] == [Plain(text[from..])];
    } else {
      PiecesOfAreTheText(text, spans[0].end, spans[1..]);
      OneSpanIsTheText(text, from, spans);
    }
  }

  /** Cutting a text into pieces loses nothing: putting the stars back gives the text. */
  lemma {:induction false} PiecesAreTheText(text: string)
    ensures SourceOf(Pieces(text)) == text
  {
    SpansMatch(text, 0);
    PiecesOfAreTheText(text, 0, Spans(text, 0));
    assert text[0..] == text;
  }

  // ---- rendering --------------------------------------------------------------

  function RenderAll(render: Piece -> string, pieces: seq<Piece>): string {
    if pieces == [] then "" else render(pieces[0]) + RenderAll(render, pieces[1..])
  }

  /** The loop both renderers run: what lies before each match, then its group, then the rest. */
  method RenderText(render: Piece -> string, text: string) returns (rendered: string)
    ensures rendered == RenderAll(render, Pieces(text))
  {
    rendered := "";
    var lastEnd: nat := 0;
    var spans := Spans(text, 0);
    ghost var whole := RenderAll(render, Pieces(text));
    var k := 0;
    while k < |spans|
      invariant 0 <= k <= |spans| && lastEnd <= |text| && InOrder(text, lastEnd, spans[k..])
      invariant whole == rendered + RenderAll(render, PiecesOf(text, lastEnd, spans[k..]))
    {
      var m := spans[k];
      RenderNext(render, text, lastEnd, spans[k..], rendered);
      assert spans[k..][1..] == spans[k + 1..];
      rendered := rendered + render(PlainBefore(text, lastEnd, m));
      rendered := rendered + render(BoldAt(text, m));
      lastEnd := m.end;
      k := k + 1;
    }
    assert PiecesOf(text, lastEnd, spans[k..]) == [Plain(text[lastEnd..])] + [];
    rendered := rendered + render(Plain(text[lastEnd..]));
  }

  /** One match further; what was rendered so far is carried along. */
  lemma {:induction false} RenderNext(render: Piece -> string, text: string, from: nat, spans: seq<Span>, done: string)
    requires InOrder(text, from, spans) && spans != []
    ensures done + RenderAll(render, PiecesOf(text, from, spans))
         == done + render(PlainBefore(text, from, spans[0])) + render(BoldAt(text, spans[0]))
            + RenderAll(render, PiecesOf(text, spans[0].end, spans[1..]))
  {
  }
}
