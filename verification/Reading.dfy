/** What a reader of rendered text sees: characters, and marks that begin and end bold. */
module Reading {
  import opened Wrappers
  import opened BoldSpans

  datatype Token<M> = Literal(c: char) | Mark(mark: M)

  /** A reading continued with the tokens of what stands in front; an error stays an error. */
  function Joined<M>(ts: seq<Token<M>>, rest: Option<seq<Token<M>>>): Option<seq<Token<M>>> {
    if rest.None? then None else Some(ts + rest.value)
  }

  lemma {:induction false} JoinedTwice<M>(a: seq<Token<M>>, b: seq<Token<M>>, rest: Option<seq<Token<M>>>)
    ensures Joined(a, Joined(b, rest)) == Joined(a + b, rest)
  {
    if rest.Some? { assert a + (b + rest.value) == a + b + rest.value; }
  }

  lemma {:induction false} JoinedNothing<M>(rest: Option<seq<Token<M>>>)
    ensures Joined([], rest) == rest
  {
    if rest.Some? { assert [] + rest.value == rest.value; }
  }

  function Literals<M>(s: string): seq<Token<M>> {
    if s == "" then [] else [Literal(s[0])] + Literals(s[1..])
  }

  function TokensOf<M>(p: Piece, opens: M, closes: M): seq<Token<M>> {
    match p
    case Plain(s) => Literals(s)
    case Bold(s) => [Mark(opens)] + Literals(s) + [Mark(closes)]
  }

  /** What a reader should see of a text: each bold piece between one pair of marks. */
  function Tokens<M>(pieces: seq<Piece>, opens: M, closes: M): seq<Token<M>> {
    if pieces == [] then [] else TokensOf(pieces[0], opens, closes) + Tokens(pieces[1..], opens, closes)
  }

  /** What it shows. */
  function Shown<M>(tokens: seq<Token<M>>): string {
    if tokens == [] then ""
    else (if tokens[0].Literal? then [tokens[0].c] else "") + Shown(tokens[1..])
  }

  lemma {:induction false} ShownJoins<M>(a: seq<Token<M>>, b: seq<Token<M>>)
    ensures Shown(a + b) == Shown(a) + Shown(b)
  {
    if a == [] {
      assert a + b == b;
    } else {
      ShownJoins(a[1..], b);
      var all := a + b;
      assert all[0] == a[0] && all[1..] == a[1..] + b;
    }
  }

  lemma {:induction false} LiteralsShow<M>(s: string)
    ensures Shown(Literals<M>(s)) == s
  {
    if s != "" {
      LiteralsShow<M>(s[1..]);
      assert ([Literal(s[0])] + Literals<M>(s[1..]))[1..] == Literals<M>(s[1..]);
    }
  }

  /** What is shown is the text without its bold markers. */
  lemma {:induction false} TokensShowWords<M>(pieces: seq<Piece>, opens: M, closes: M)
    ensures Shown(Tokens(pieces, opens, closes)) == Words(pieces)
  {
    if pieces != [] {
      TokensShowWords(pieces[1..], opens, closes);
      ShownJoins(TokensOf(pieces[0], opens, closes), Tokens(pieces[1..], opens, closes));
      LiteralsShow<M>(pieces[0].text);
      if pieces[0].Bold? {
        var l := Literals<M>(pieces[0].text);
        ShownJoins([Mark(opens)] + l, [Mark(closes)]);
        ShownJoins([Mark(opens)], l);
      }
    }
  }
}
