/** The HTML alternative of a mail (packages/notifiers/notifiers/email.py) against a reader of
    the tags and entities it uses. */
module EmailHtml {
  import opened Wrappers
  import opened BoldSpans
  import opened Reading

  /** html.escape with quote=True. */
  function EscapeChar(c: char): string {
    if c == '&' then "&amp;" else if c == '<' then "&lt;" else if c == '>' then "&gt;"
    else if c == '\"' then "&quot;" else if c == '\'' then "&#x27;" else [c]
  }

  /** Outside bold a newline becomes a line break; inside it stays as it is. */
  function HtmlChar(c: char, bold: bool): string {
    if c == '\n' && !bold then "<br>" else EscapeChar(c)
  }

  function Html(s: string, bold: bool): string {
    if s == "" then "" else HtmlChar(s[0], bold) + Html(s[1..], bold)
  }

  function RenderPiece(p: Piece): string {
    match p
    case Plain(s) => Html(s, false)
    case Bold(s) => "<strong>" + Html(s, true) + "</strong>"
  }

  function Render(pieces: seq<Piece>): string {
    RenderAll(RenderPiece, pieces)
  }

  /** `_render_html_body`. */
  method RenderHtmlBody(text: string) returns (rendered: string)
    ensures rendered == Render(Pieces(text))
  {
    rendered := RenderText(RenderPiece, text);
  }

  // ---- reading it back --------------------------------------------------------

  datatype Strong = StrongOpens | StrongCloses

  type Seen = Token<Strong>

  /** The next token and its length, or none: any other tag or entity is an error. */
  function Lex(s: string): Option<(Seen, nat)>
    requires s != ""
  {
    if s[0] == '<' then
      if "<br>" <= s then Some((Literal('\n'), 4))
      else if "<strong>" <= s then Some((Mark(StrongOpens), 8))
      else if "</strong>" <= s then Some((Mark(StrongCloses), 9))
      else None
    else if s[0] == '&' then
      if "&amp;" <= s then Some((Literal('&'), 5))
      else if "&lt;" <= s then Some((Literal('<'), 4))
      else if "&gt;" <= s then Some((Literal('>'), 4))
      else if "&quot;" <= s then Some((Literal('\"'), 6))
      else if "&#x27;" <= s then Some((Literal('\''), 6))
      else None
    else Some((Literal(s[0]), 1))
  }

  function Read(s: string): Option<seq<Seen>> {
    if s == "" then Some([])
    else
      var t := Lex(s);
      if t.None? then None else Joined([t.value.0], Read(s[t.value.1..]))
  }

  lemma {:induction false} LexChar(c: char, bold: bool, rest: string)
    ensures var h := HtmlChar(c, bold); h != "" && Lex(h + rest) == Some((Literal(c), |h|))
  {
    var h := HtmlChar(c, bold);
    var s := h + rest;
    assert forall i :: 0 <= i < |h| ==> s[i] == h[i];
    if |h| > 1 { assert s[1] == h[1]; }
    if h[0] == '&' { assert s[1] == h[1] && h <= s; } else if h[0] == '<' { assert h <= s; }
  }

  lemma {:induction false} ReadHtml(s: string, bold: bool, rest: string)
    ensures Read(Html(s, bold) + rest) == Joined(Literals(s), Read(rest))
  {
    if s == "" {
      assert Html(s, bold) + rest == rest;
      JoinedNothing(Read(rest));
    } else {
      var h, tail := HtmlChar(s[0], bold), Html(s[1..], bold) + rest;
      assert Html(s, bold) + rest == h + tail;
      LexChar(s[0], bold, tail);
      ReadHtml(s[1..], bold, rest);
      JoinedTwice([Literal(s[0])], Literals(s[1..]), Read(rest));
    }
  }

  lemma {:induction false} ReadStrong(rest: string)
    ensures Read("<strong>" + rest) == Joined([Mark(StrongOpens)], Read(rest))
    ensures Read("</strong>" + rest) == Joined([Mark(StrongCloses)], Read(rest))
  {
    assert ("<strong>" + rest)[1] == 's' && ("</strong>" + rest)[1] == '/';
    assert "<strong>" <= "<strong>" + rest && "</strong>" <= "</strong>" + rest;
  }

  lemma {:induction false} BoldInside(s: string, rest: string)
    ensures RenderPiece(Bold(s)) + rest == "<strong>" + (Html(s, true) + ("</strong>" + rest))
  {
  }

  lemma {:induction false} ReadPiece(p: Piece, rest: string)
    ensures Read(RenderPiece(p) + rest) == Joined(TokensOf(p, StrongOpens, StrongCloses), Read(rest))
  {
    match p
    case Plain(s) => ReadHtml(s, false, rest);
    case Bold(s) => ReadBold(s, rest);
  }

  lemma {:induction false} ReadBold(s: string, rest: string)
    ensures Read(RenderPiece(Bold(s)) + rest) == Joined(TokensOf(Bold(s), StrongOpens, StrongCloses), Read(rest))
  {
    var l, closing := Literals(s), "</strong>" + rest;
    BoldInside(s, rest);
    ReadStrong(Html(s, true) + closing);
    ReadHtml(s, true, closing);
    ReadStrong(rest);
    JoinedTwice(l, [Mark(StrongCloses)], Read(rest));
    JoinedTwice([Mark(StrongOpens)], l + [Mark(StrongCloses)], Read(rest));
    assert [Mark(StrongOpens)] + (l + [Mark(StrongCloses)]) == [Mark(StrongOpens)] + l + [Mark(StrongCloses)];
  }

  lemma {:induction false} ReadRendered(pieces: seq<Piece>)
    ensures Read(Render(pieces)) == Some(Tokens(pieces, StrongOpens, StrongCloses))
  {
    if pieces != [] {
      ReadRendered(pieces[1..]);
      ReadPiece(pieces[0], Render(pieces[1..]));
    }
  }

  /** For every text: undoing the entities and tags of the HTML body gives its own characters,
      each bold span between one pair of strong tags and no other tag anywhere, and without the
      tags it is the plaintext alternative of the same mail (section 5.1.4 of RFC 2046 asks the
      alternatives to carry the same information). */
  lemma {:induction false} HtmlSaysTheSame(text: string)
    ensures Read(Render(Pieces(text))) == Some(Tokens(Pieces(text), StrongOpens, StrongCloses))
    ensures Shown(Tokens(Pieces(text), StrongOpens, StrongCloses)) == StripBold(text)
  {
    ReadRendered(Pieces(text));
    TokensShowWords(Pieces(text), StrongOpens, StrongCloses);
  }
}
