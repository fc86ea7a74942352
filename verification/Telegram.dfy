/** Telegram MarkdownV2 rendering (packages/notifiers/notifiers/telegram.py) against a reader
    of the format. */
module Telegram {
  import opened Wrappers
  import opened BoldSpans
  import opened Reading

  predicate Reserved(c: char) {
    c in "_*[]()~`>#+-=|{}.!"
  }

  function EscapeChar(c: char): string {
    if Reserved(c) then ['\\', c] else [c]
  }

  /** escape_markdown_v2. */
  function Escape(s: string): string {
    if s == "" then "" else EscapeChar(s[0]) + Escape(s[1..])
  }

  function RenderPiece(p: Piece): string {
    match p
    case Plain(s) => Escape(s)
    case Bold(s) => "*" + Escape(s) + "*"
  }

  function Render(pieces: seq<Piece>): string {
    RenderAll(RenderPiece, pieces)
  }

  /** render_markdown_v2. */
  method RenderMarkdownV2(text: string) returns (rendered: string)
    ensures rendered == Render(Pieces(text))
  {
    rendered := RenderText(RenderPiece, text);
  }

  // ---- reading it back --------------------------------------------------------

  datatype Star = Delimiter

  type Seen = Token<Star>

  /** A reader of MarkdownV2 text with bold as its only entity: a backslash makes the next
      character literal, a bare star delimits bold, and any other bare reserved character, or a
      backslash before nothing, is an error. */
  function Read(s: string): Option<seq<Seen>> {
    if s == "" then Some([])
    else if s[0] == '\\' then
      if |s| == 1 then None
      else Joined([Literal(s[1])], Read(s[2..]))
    else if s[0] == '*' then Joined([Mark(Delimiter)], Read(s[1..]))
    else if Reserved(s[0]) then None
    else Joined([Literal(s[0])], Read(s[1..]))
  }

  predicate NoBackslash(s: string) {
    forall i :: 0 <= i < |s| ==> s[i] != '\\'
  }

  ghost predicate AllClean(pieces: seq<Piece>) {
    forall p <- pieces :: NoBackslash(p.text)
  }

  lemma {:induction false} ReadEscaped(s: string, rest: string)
    requires NoBackslash(s)
    ensures Read(Escape(s) + rest) == Joined(Literals(s), Read(rest))
  {
    if s == "" {
      assert Escape(s) + rest == rest;
      JoinedNothing(Read(rest));
    } else {
      var tail := Escape(s[1..]) + rest;
      assert Escape(s) + rest == EscapeChar(s[0]) + tail;
      ReadEscaped(s[1..], rest);
      JoinedTwice([Literal(s[0])], Literals(s[1..]), Read(rest));
      if Reserved(s[0]) {
        assert (['\\', s[0]] + tail)[2..] == tail;
      } else {
        assert ([s[0]] + tail)[1..] == tail;
      }
    }
  }

  lemma {:induction false} ReadPiece(p: Piece, rest: string)
    requires NoBackslash(p.text)
    ensures Read(RenderPiece(p) + rest) == Joined(TokensOf(p, Delimiter, Delimiter), Read(rest))
  {
    match p
    case Plain(s) => ReadEscaped(s, rest);
    case Bold(s) =>
      var l := Literals(s);
      assert RenderPiece(p) + rest == "*" + (Escape(s) + ("*" + rest));
      ReadEscaped(s, "*" + rest);
      JoinedTwice(l, [Mark(Delimiter)], Read(rest));
      JoinedTwice([Mark(Delimiter)], l + [Mark(Delimiter)], Read(rest));
      assert [Mark(Delimiter)] + (l + [Mark(Delimiter)]) == [Mark(Delimiter)] + l + [Mark(Delimiter)];
  }

  lemma {:induction false} ReadRendered(pieces: seq<Piece>)
    requires AllClean(pieces)
    ensures Read(Render(pieces)) == Some(Tokens(pieces, Delimiter, Delimiter))
  {
    if pieces != [] {
      ReadRendered(pieces[1..]);
      ReadPiece(pieces[0], Render(pieces[1..]));
    }
  }

  // ---- why a backslash breaks it ----------------------------------------------

  /** The least a token takes up. */
  function Width(t: Seen): nat {
    if t.Literal? && (Reserved(t.c) || t.c == '\\') then 2 else 1
  }

  function WidthOf(ts: seq<Seen>): nat {
    if ts == [] then 0 else Width(ts[0]) + WidthOf(ts[1..])
  }

  lemma {:induction false} WidthJoins(a: seq<Seen>, b: seq<Seen>)
    ensures WidthOf(a + b) == WidthOf(a) + WidthOf(b)
  {
    if a == [] {
      assert a + b == b;
    } else {
      assert (a + b)[1..] == a[1..] + b;
      WidthJoins(a[1..], b);
    }
  }

  lemma {:induction false} ReadingIsNoWider(s: string)
    ensures Read(s).Some? ==> WidthOf(Read(s).value) <= |s|
  {
    if s != "" {
      if s[0] == '\\' {
        if |s| > 1 {
          ReadingIsNoWider(s[2..]);
          if Read(s).Some? { WidthJoins([Literal(s[1])], Read(s[2..]).value); }
        }
      } else {
        ReadingIsNoWider(s[1..]);
        if Read(s[1..]).Some? {
          WidthJoins([if s[0] == '*' then Mark(Delimiter) else Literal(s[0])], Read(s[1..]).value);
        }
      }
    }
  }

  function Backslashes(s: string): nat {
    if s == "" then 0 else (if s[0] == '\\' then 1 else 0) + Backslashes(s[1..])
  }

  lemma {:induction false} EscapedWidth(s: string)
    ensures |Escape(s)| + Backslashes(s) == WidthOf(Literals(s))
  {
    if s != "" {
      EscapedWidth(s[1..]);
      WidthJoins([Literal(s[0])], Literals(s[1..]));
    }
  }

  function BackslashesOf(pieces: seq<Piece>): nat {
    if pieces == [] then 0 else Backslashes(pieces[0].text) + BackslashesOf(pieces[1..])
  }

  lemma {:induction false} RenderedWidth(pieces: seq<Piece>)
    ensures |Render(pieces)| + BackslashesOf(pieces) == WidthOf(Tokens(pieces, Delimiter, Delimiter))
  {
    if pieces != [] {
      RenderedWidth(pieces[1..]);
      WidthJoins(TokensOf(pieces[0], Delimiter, Delimiter), Tokens(pieces[1..], Delimiter, Delimiter));
      EscapedWidth(pieces[0].text);
      if pieces[0].Bold? {
        var l := Literals(pieces[0].text);
        WidthJoins([Mark(Delimiter)] + l, [Mark(Delimiter)]);
        WidthJoins([Mark(Delimiter)], l);
        assert WidthOf([Mark(Delimiter)]) == 1;
      }
    }
  }

  lemma {:induction false} NoneCounted(s: string)
    ensures Backslashes(s) == 0 <==> NoBackslash(s)
  {
    if s != "" {
      NoneCounted(s[1..]);
      assert forall i :: 0 < i < |s| ==> s[i] == s[1..][i - 1];
    }
  }

  lemma {:induction false} NoneCountedIn(pieces: seq<Piece>)
    ensures BackslashesOf(pieces) == 0 <==> AllClean(pieces)
  {
    if pieces != [] {
      NoneCounted(pieces[0].text);
      NoneCountedIn(pieces[1..]);
      assert pieces == [pieces[0]] + pieces[1..];
    }
  }

  lemma {:induction false} CleanSource(pieces: seq<Piece>)
    ensures AllClean(pieces) <==> NoBackslash(SourceOf(pieces))
  {
    if pieces != [] {
      CleanSource(pieces[1..]);
      var p, rest := pieces[0], SourceOf(pieces[1..]);
      assert pieces == [p] + pieces[1..];
      CleanJoins(Source(p), rest);
      if p.Bold? {
        CleanJoins("**" + p.text, "**");
        CleanJoins("**", p.text);
      }
    }
  }

  lemma {:induction false} CleanJoins(a: string, b: string)
    ensures NoBackslash(a + b) <==> NoBackslash(a) && NoBackslash(b)
  {
    if NoBackslash(a + b) {
      assert forall i :: 0 <= i < |a| ==> a[i] == (a + b)[i];
      assert forall i :: 0 <= i < |b| ==> b[i] == (a + b)[|a| + i];
    }
  }

  /** The rendering reads back as the text's own literals and one balanced pair of delimiters
      for each bold span, with every other reserved character escaped, exactly when the text
      has no backslash: the escape character itself is missing from the reserved set. */
  lemma {:induction false} ReadsBackExactly(text: string)
    ensures Read(Render(Pieces(text))) == Some(Tokens(Pieces(text), Delimiter, Delimiter)) <==> NoBackslash(text)
    ensures NoBackslash(text) ==> Shown(Read(Render(Pieces(text))).value) == StripBold(text)
  {
    var pieces := Pieces(text);
    PiecesAreTheText(text);
    CleanSource(pieces);
    TokensShowWords(pieces, Delimiter, Delimiter);
    if AllClean(pieces) {
      ReadRendered(pieces);
    } else {
      NoneCountedIn(pieces);
      RenderedWidth(pieces);
      ReadingIsNoWider(Render(pieces));
    }
  }
}
