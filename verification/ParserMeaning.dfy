/**
 What Parse says of a line, by the way in which the line is written: blanks, words and
 redirections. Every line can be written in that way.
 */
module ParserMeaning {
  import opened Parser
  import opened Wrappers

  /** A word, or a redirection: an arrow, spaces and a name. */
  datatype Token = Word(text: string) | Input(spaces: nat, name: string) | Output(spaces: nat, name: string)

  /** A token with what stands in front of it. */
  datatype Piece = Piece(gap: string, token: Token)

  /** Spaces and newlines. */
  predicate IsGap(s: string) { forall i | 0 <= i < |s| :: s[i] == ' ' || s[i] == '\n' }

  predicate IsWord(s: string) {
    s != "" && forall c | c in s :: c != ' ' && c != '\n' && c != '<' && c != '>'
  }

  predicate IsName(s: string) { forall c | c in s :: c != ' ' && c != '\n' }

  function Repeat(n: nat): string { if n == 0 then "" else " " + Repeat(n - 1) }

  function Text(token: Token): string {
    match token
    case Word(w) => w
    case Input(n, name) => "<" + Repeat(n) + name
    case Output(n, name) => ">" + Repeat(n) + name
  }

  function Render(pieces: seq<Piece>, tail: string): string {
    if pieces == [] then tail else pieces[0].gap + (Text(pieces[0].token) + Render(pieces[1..], tail))
  }

  /** The token ends where rest begins: words at blanks and arrows, names at blanks, and a missing name at a newline. */
  predicate Ends(token: Token, rest: string) {
    match token
    case Word(w) => IsWord(w) && (rest == "" || rest[0] in {' ', '\n', '<', '>'})
    case _ => IsName(token.name) && (rest == "" || rest[0] == '\n' || (rest[0] == ' ' && token.name != ""))
  }

  predicate WellFormed(pieces: seq<Piece>, tail: string) {
    if pieces == [] then IsGap(tail)
    else && IsGap(pieces[0].gap) && Ends(pieces[0].token, Render(pieces[1..], tail)) && WellFormed(pieces[1..], tail)
  }

  /** The words among the pieces, in order. */
  function WordsIn(pieces: seq<Piece>): seq<string> {
    if pieces == [] then []
    else (if pieces[0].token.Word? then [pieces[0].token.text] else []) + WordsIn(pieces[1..])
  }

  /** The name of the last redirection of a kind. */
  function LastName(pieces: seq<Piece>, input: bool): Option<string> {
    if pieces == [] then None
    else
      var t := pieces[|pieces| - 1].token;
      if !t.Word? && t.Input? == input then Some(t.name) else LastName(pieces[..|pieces| - 1], input)
  }

  lemma {:induction false} LastNameNext(pieces: seq<Piece>, input: bool)
    requires pieces != []
    ensures var (t, rest) := (pieces[0].token, LastName(pieces[1..], input));
            LastName(pieces, input) ==
            if rest.Some? then rest else if !t.Word? && t.Input? == input then Some(t.name) else None
  {
    var n := |pieces| - 1;
    if n > 0 {
      LastNameNext(pieces[..n], input);
      assert pieces[..n][1..] == pieces[1..][..n - 1];
      assert pieces[1..][n - 1] == pieces[n];
    }
  }

  lemma {:induction false} ParseGap(gap: string, s: string)
    requires IsGap(gap)
    ensures Parse(gap + s) == Parse(s)
  {
    if gap == "" {
      assert gap + s == s;
    } else {
      ParseGap(gap[1..], s);
      assert (gap + s)[0] == gap[0] && (gap + s)[1..] == gap[1..] + s;
    }
  }

  lemma {:induction false} RepeatSpaces(n: nat)
    ensures |Repeat(n)| == n && forall i | 0 <= i < n :: Repeat(n)[i] == ' '
  {
    if n > 0 {
      RepeatSpaces(n - 1);
    }
  }

  lemma ParseWordFirst(w: string, rest: string)
    requires Ends(Word(w), rest)
    ensures Parse(w + rest) == Parse(rest).(words := [w] + Parse(rest).words)
  {
    hide Parse;
    var s := w + rest;
    assert forall i | 0 <= i < |w| :: s[i] == w[i] && w[i] in w;
    WordLenIs(s, |w|);
    WordUnfold(s, |w|);
    assert s[..|w|] == w && s[|w|..] == rest;
  }

  lemma {:induction false} WordUnfold(s: string, n: nat)
    requires s != "" && !Blank(s[0]) && !Arrow(s[0]) && n == WordLen(s)
    ensures Parse(s) == Parse(s[n..]).(words := [s[..n]] + Parse(s[n..]).words)
  {
  }

  lemma ParseFileFirst(c: char, n: nat, name: string, rest: string)
    requires Arrow(c) && Ends(Input(n, name), rest)
    ensures Parse([c] + Repeat(n) + name + rest) == FileThen(c, name, Parse(rest))
  {
    hide Parse, Repeat, Spaces, NameLen;
    RepeatSpaces(n);
    var (s, t) := ([c] + Repeat(n) + name + rest, name + rest);
    FileSlices(c, Repeat(n), name, rest);
    NameFirst(name, rest);
    assert name == "" && rest != "" ==> rest[0] == '\n';
    SpacesIs(Repeat(n) + t, n);
    ArrowUnfold(s, n + 1, |name|);
  }

  lemma FileSlices(c: char, gap: string, name: string, rest: string)
    ensures var (s, t) := ([c] + gap + name + rest, name + rest);
            s != "" && s[0] == c && s[1..] == gap + t && s[|gap| + 1..] == t
    ensures (name + rest)[..|name|] == name && (name + rest)[|name|..] == rest
  {
  }

  lemma NameFirst(name: string, rest: string)
    requires IsName(name) && (rest == "" || rest[0] == ' ' || rest[0] == '\n')
    ensures NameLen(name + rest) == |name| && (name != "" ==> (name + rest)[0] != ' ')
  {
    assert forall i | 0 <= i < |name| :: (name + rest)[i] == name[i] && name[i] in name;
    NameLenIs(name + rest, |name|);
  }

  /** Parse reads off a line what it was written from: its words in order, and the last redirection of each kind. */
  lemma {:induction false} ParseRendered(pieces: seq<Piece>, tail: string)
    requires WellFormed(pieces, tail)
    ensures Parse(Render(pieces, tail)) == Cmd(WordsIn(pieces), LastName(pieces, true), LastName(pieces, false))
  {
    hide Parse;
    if pieces == [] {
      ParseGap(tail, "");
      assert tail + "" == tail;
      ParseNothing();
    } else {
      var (p, rest) := (pieces[0], Render(pieces[1..], tail));
      ParseRendered(pieces[1..], tail);
      LastNameNext(pieces, true);
      LastNameNext(pieces, false);
      ParseGap(p.gap, Text(p.token) + rest);
      match p.token {
        case Word(w) => ParseWordFirst(w, rest);
        case Input(n, name) => ParseFileFirst('<', n, name, rest);
        case Output(n, name) => ParseFileFirst('>', n, name, rest);
      }
    }
  }

  lemma ParseNothing()
    ensures Parse("") == Cmd([], None, None)
  {
  }

  /** Every line is written from some words and redirections, and the blanks between them. */
  lemma {:induction false} EveryLine(s: string) returns (pieces: seq<Piece>, tail: string)
    ensures WellFormed(pieces, tail) && Render(pieces, tail) == s
    decreases |s|
  {
    if s == "" {
      pieces, tail := [], "";
    } else if s[0] == ' ' || s[0] == '\n' {
      pieces, tail := EveryLine(s[1..]);
      pieces, tail := Deeper(s[0], pieces, tail);
      assert s == [s[0]] + s[1..];
    } else {
      var token, rest := FirstToken(s);
      pieces, tail := EveryLine(rest);
      pieces := Longer(token, pieces, tail);
    }
  }

  /** One blank more in front. */
  lemma Deeper(c: char, pieces: seq<Piece>, tail: string) returns (pieces': seq<Piece>, tail': string)
    requires WellFormed(pieces, tail) && (c == ' ' || c == '\n')
    ensures WellFormed(pieces', tail') && Render(pieces', tail') == [c] + Render(pieces, tail)
  {
    if pieces == [] {
      pieces', tail' := [], [c] + tail;
    } else {
      var p := pieces[0];
      pieces', tail' := [Piece([c] + p.gap, p.token)] + pieces[1..], tail;
      assert pieces'[1..] == pieces[1..];
      assert [c] + p.gap + (Text(p.token) + Render(pieces[1..], tail)) ==
             [c] + (p.gap + (Text(p.token) + Render(pieces[1..], tail)));
    }
  }

  /** One token more in front. */
  lemma Longer(token: Token, pieces: seq<Piece>, tail: string) returns (pieces': seq<Piece>)
    requires WellFormed(pieces, tail) && Ends(token, Render(pieces, tail))
    ensures WellFormed(pieces', tail) && Render(pieces', tail) == Text(token) + Render(pieces, tail)
  {
    pieces' := [Piece("", token)] + pieces;
    assert pieces'[1..] == pieces;
    assert "" + (Text(token) + Render(pieces, tail)) == Text(token) + Render(pieces, tail);
  }

  /** The token that a line begins with. */
  lemma FirstToken(s: string) returns (token: Token, rest: string)
    requires s != "" && s[0] != ' ' && s[0] != '\n'
    ensures Ends(token, rest) && s == Text(token) + rest && |rest| < |s|
  {
    hide Spaces, NameLen, WordLen, Repeat;
    if s[0] == '<' || s[0] == '>' {
      var k := Spaces(s[1..]);
      var t := s[1 + k..];
      var n := NameLen(t);
      token := if s[0] == '<' then Input(k, t[..n]) else Output(k, t[..n]);
      rest := t[n..];
      RepeatIs(s[1..], k);
      CutFile(s, k, n);
    } else {
      var n := WordLen(s);
      token, rest := Word(s[..n]), s[n..];
      assert s == s[..n] + s[n..];
    }
  }

  lemma CutFile(s: string, k: nat, n: nat)
    requires 1 + k + n <= |s|
    ensures s == [s[0]] + s[1..][..k] + s[1 + k..][..n] + s[1 + k..][n..]
  {
  }

  lemma {:induction false} RepeatIs(s: string, n: nat)
    requires n <= |s| && forall i | 0 <= i < n :: s[i] == ' '
    ensures s[..n] == Repeat(n)
  {
    if n > 0 {
      RepeatIs(s[1..], n - 1);
      assert s[..n] == [s[0]] + s[1..][..n - 1];
    }
  }

  /** Two words, as they are typed: the newline at the end is part of neither. */
  lemma TwoWords(a: string, b: string)
    requires IsWord(a) && IsWord(b)
    ensures Parse(a + " " + b + "\n") == Cmd([a, b], None, None)
  {
    hide Parse;
    var pieces := [Piece("", Word(a)), Piece(" ", Word(b))];
    var last := [Piece(" ", Word(b))];
    assert pieces[1..] == last && last[1..] == [];
    assert Render(last, "\n") == " " + (b + "\n");
    assert Render(pieces, "\n") == "" + (a + (" " + (b + "\n")));
    assert a + " " + b + "\n" == Render(pieces, "\n");
    assert WellFormed(last, "\n") && WellFormed(pieces, "\n");
    ParseRendered(pieces, "\n");
    assert LastName(last, true) == LastName(last, false) == None;
    LastNameNext(pieces, true);
    LastNameNext(pieces, false);
    assert WordsIn(last) == [b];
  }
}
