/**
 parseline and findpipe of the shell: the tokenizer that works in place on the line.
 */
module Parser {
  import opened Wrappers

  const NUL: char := '\0'
  const MAXARGS: nat := 32

  // --------------------------------------------------- what a command line means

  /** The words of a command, and the names of its redirections. */
  datatype Cmd = Cmd(words: seq<string>, infile: Option<string>, outfile: Option<string>)

  predicate Blank(c: char) { c == ' ' || c == '\n' }
  predicate Arrow(c: char) { c == '<' || c == '>' }

  /** How many blanks (only ' ') precede a file name. */
  function Spaces(s: string): (n: nat)
    ensures n <= |s| && (n < |s| ==> s[n] != ' ')
    ensures forall i | 0 <= i < n :: s[i] == ' '
  {
    if s == "" || s[0] != ' ' then 0 else 1 + Spaces(s[1..])
  }

  /** The length of a file name: it ends at a blank. */
  function NameLen(s: string): (n: nat)
    ensures n <= |s| && (n < |s| ==> Blank(s[n]))
    ensures forall i | 0 <= i < n :: !Blank(s[i])
  {
    if s == "" || Blank(s[0]) then 0 else 1 + NameLen(s[1..])
  }

  /** The length of a word: it ends at a blank or an arrow. */
  function WordLen(s: string): (n: nat)
    ensures n <= |s| && (n < |s| ==> Blank(s[n]) || Arrow(s[n]))
    ensures forall i | 0 <= i < n :: !Blank(s[i]) && !Arrow(s[i])
  {
    if s == "" || Blank(s[0]) || Arrow(s[0]) then 0 else 1 + WordLen(s[1..])
  }

  /** A redirection in front of the rest of a line. */
  function FileThen(c: char, name: string, rest: Cmd): Cmd {
    if c == '<' then rest.(infile := Latest(Some(name), rest.infile))
    else rest.(outfile := Latest(Some(name), rest.outfile))
  }

  /** The meaning of a line: words in order; of several redirections the last one counts. */
  function Parse(s: string): Cmd
    decreases |s|
  {
    if s == "" then Cmd([], None, None)
    else if Blank(s[0]) then Parse(s[1..])
    else if Arrow(s[0]) then
      var t := s[1 + Spaces(s[1..])..];
      FileThen(s[0], t[..NameLen(t)], Parse(t[NameLen(t)..]))
    else
      var rest := Parse(s[WordLen(s)..]);
      rest.(words := [s[..WordLen(s)]] + rest.words)
  }

  function Latest(a: Option<string>, b: Option<string>): Option<string> {
    if b.Some? then b else a
  }

  /** No word is empty or contains a blank or an arrow, and there is a gap after every word. */
  lemma {:induction false} WordsMeaning(s: string)
    ensures forall w | w in Parse(s).words :: |w| > 0 && (forall c | c in w :: !Blank(c) && !Arrow(c))
    ensures 2 * |Parse(s).words| <= |s| + 1
    decreases |s|
  {
    if s == "" {
    } else if Blank(s[0]) {
      WordsMeaning(s[1..]);
    } else if Arrow(s[0]) {
      var t := s[1 + Spaces(s[1..])..];
      WordsMeaning(t[NameLen(t)..]);
    } else {
      var n := WordLen(s);
      assert n > 0;
      if n < |s| {
        GapAfterWord(s[n..]);
      }
      WordsMeaning(s[n..]);
    }
  }

  /** A rest that starts with a blank or an arrow has one word less at most. */
  lemma {:induction false} GapAfterWord(s: string)
    requires s != "" && (Blank(s[0]) || Arrow(s[0]))
    ensures 2 * |Parse(s).words| <= |s|
    decreases |s|
  {
    if Blank(s[0]) {
      WordsMeaning(s[1..]);
    } else {
      var t := s[1 + Spaces(s[1..])..];
      WordsMeaning(t[NameLen(t)..]);
      if NameLen(t) < |t| {
        GapAfterWord(t[NameLen(t)..]);
      }
    }
  }

  /** MAXARGS leaves room for the words of any line of 62 characters, and for the null behind them. */
  lemma ShortLinesFit(s: string)
    requires |s| <= 2 * (MAXARGS - 1)
    ensures |Parse(s).words| < MAXARGS
  {
    WordsMeaning(s);
  }

  /** A line of n words of one letter each, with single spaces between them. */
  function Letters(n: nat): string {
    if n == 0 then "" else if n == 1 then "a" else "a " + Letters(n - 1)
  }

  /** The bound is tight: with one character more, the words may fill argv and leave no room. */
  lemma {:induction false} LettersParse(n: nat)
    requires n > 0
    ensures |Letters(n)| == 2 * n - 1 && |Parse(Letters(n)).words| == n
  {
    if n > 1 {
      LettersParse(n - 1);
      var s := Letters(n);
      assert WordLen(s) == 1 by {
        assert s[1..][0] == ' ';
      }
      assert s[1..][1..] == Letters(n - 1);
    } else {
      assert Letters(1) == "a" && WordLen("a") == 1;
      assert "a"[1..] == "";
    }
  }

  // ---------------------------------------------------------- the line in memory

  /** The string at address a of a buffer: up to the first NUL. */
  predicate CStringAt(buf: seq<char>, a: int, w: string) {
    && 0 <= a && a + |w| < |buf|
    && buf[a..a + |w|] == w
    && buf[a + |w|] == NUL
  }

  /** The text of a command: from start to the NUL at end. */
  predicate Terminated(buf: seq<char>, start: nat, end: nat) {
    start <= end < |buf| && buf[end] == NUL && forall i | start <= i < end :: buf[i] != NUL
  }

  /** Token w at address a lies before p and has been closed by a NUL. */
  predicate IsSettled(buf: seq<char>, a: int, w: string, p: nat)
    requires p <= |buf|
  {
    0 <= a && a + |w| < p && buf[a..a + |w|] == w && buf[a + |w|] == NUL
  }

  /** It is settled, or it ends at p, where the separator that closes it still stands. */
  predicate Passed(buf: seq<char>, a: int, w: string, p: nat, end: nat)
    requires p <= end < |buf|
  {
    || IsSettled(buf, a, w, p)
    || (0 <= a && a + |w| == p && buf[a..p] == w && (p < end ==> Blank(buf[p]) || Arrow(buf[p])))
  }

  /** What has been found so far: argv, infile and outfile point at the tokens of done. */
  ghost predicate AllSettled(buf: seq<char>, argv: seq<int>, infile: int, outfile: int, done: Cmd, p: nat)
    requires p <= |buf| && |done.words| <= |argv|
  {
    && (forall k | 0 <= k < |done.words| :: IsSettled(buf, argv[k], done.words[k], p))
    && (if done.infile.Some? then IsSettled(buf, infile, done.infile.value, p) else infile == -1)
    && (if done.outfile.Some? then IsSettled(buf, outfile, done.outfile.value, p) else outfile == -1)
  }

  ghost predicate AllPassed(buf: seq<char>, argv: seq<int>, infile: int, outfile: int, done: Cmd, p: nat, end: nat)
    requires p <= end < |buf| && |done.words| <= |argv|
  {
    && (forall k | 0 <= k < |done.words| :: Passed(buf, argv[k], done.words[k], p, end))
    && (if done.infile.Some? then Passed(buf, infile, done.infile.value, p, end) else infile == -1)
    && (if done.outfile.Some? then Passed(buf, outfile, done.outfile.value, p, end) else outfile == -1)
  }

  /** Writing a NUL over the character at p settles everything. */
  lemma Close(buf: seq<char>, argv: seq<int>, infile: int, outfile: int, done: Cmd, p: nat, end: nat)
    requires p < end < |buf| && |done.words| <= |argv|
    requires AllPassed(buf, argv, infile, outfile, done, p, end)
    ensures AllSettled(buf[p := NUL], argv, infile, outfile, done, p + 1)
  {
    assert forall a: nat, b: nat | a <= b <= p :: buf[p := NUL][a..b] == buf[a..b];
  }

  /** In front of a letter of a word, everything is settled. */
  lemma InFrontOfWord(buf: seq<char>, argv: seq<int>, infile: int, outfile: int, done: Cmd, p: nat, end: nat)
    requires p < end < |buf| && |done.words| <= |argv| && !Blank(buf[p]) && !Arrow(buf[p])
    requires AllPassed(buf, argv, infile, outfile, done, p, end)
    ensures AllSettled(buf, argv, infile, outfile, done, p)
  {
  }

  lemma SettledLater(buf: seq<char>, argv: seq<int>, infile: int, outfile: int, done: Cmd, p: nat, q: nat, end: nat)
    requires p <= q <= end < |buf| && |done.words| <= |argv|
    requires AllSettled(buf, argv, infile, outfile, done, p)
    ensures AllPassed(buf, argv, infile, outfile, done, q, end)
  {
  }

  /** What has been parsed, followed by the rest. */
  function Then(a: Cmd, b: Cmd): Cmd {
    Cmd(a.words + b.words, Latest(a.infile, b.infile), Latest(a.outfile, b.outfile))
  }

  lemma ThenNothing(b: Cmd)
    ensures Then(Cmd([], None, None), b) == b
  {
  }

  lemma ParseBlank(o: string, p: nat, end: nat)
    requires p < end <= |o| && Blank(o[p])
    ensures Parse(o[p..end]) == Parse(o[p + 1..end])
  {
    assert o[p..end][1..] == o[p + 1..end];
  }

  /** One word: positions p to q. */
  lemma ParseWord(o: string, p: nat, q: nat, end: nat, done: Cmd)
    requires p < q <= end <= |o| && (q < end ==> Blank(o[q]) || Arrow(o[q]))
    requires forall i | p <= i < q :: !Blank(o[i]) && !Arrow(o[i])
    ensures Then(done, Parse(o[p..end])) == Then(done.(words := done.words + [o[p..q]]), Parse(o[q..end]))
  {
    var t := o[p..end];
    WordLenIs(t, q - p);
    assert t[..q - p] == o[p..q] && t[q - p..] == o[q..end];
    assert done.words + ([o[p..q]] + Parse(o[q..end]).words) == done.words + [o[p..q]] + Parse(o[q..end]).words;
  }

  lemma {:induction false} WordLenIs(t: string, n: nat)
    requires n <= |t| && (n < |t| ==> Blank(t[n]) || Arrow(t[n]))
    requires forall i | 0 <= i < n :: !Blank(t[i]) && !Arrow(t[i])
    ensures WordLen(t) == n
  {
    if n > 0 {
      WordLenIs(t[1..], n - 1);
    }
  }

  lemma {:induction false} NameLenIs(t: string, n: nat)
    requires n <= |t| && (n < |t| ==> Blank(t[n]))
    requires forall i | 0 <= i < n :: !Blank(t[i])
    ensures NameLen(t) == n
  {
    if n > 0 {
      NameLenIs(t[1..], n - 1);
    }
  }

  lemma {:induction false} SpacesIs(t: string, n: nat)
    requires n <= |t| && (n < |t| ==> t[n] != ' ')
    requires forall i | 0 <= i < n :: t[i] == ' '
    ensures Spaces(t) == n
  {
    if n > 0 {
      SpacesIs(t[1..], n - 1);
    }
  }

  /** done, after a redirection of kind c to name. */
  function WithFile(done: Cmd, c: char, name: string): Cmd {
    if c == '<' then done.(infile := Some(name)) else done.(outfile := Some(name))
  }

  /** One redirection: an arrow at p, spaces up to a, a name up to q. */
  lemma ParseArrow(o: string, p: nat, a: nat, q: nat, end: nat, done: Cmd)
    requires p < a <= q <= end <= |o| && Arrow(o[p])
    requires (forall i | p < i < a :: o[i] == ' ') && (a < end ==> o[a] != ' ')
    requires (forall i | a <= i < q :: !Blank(o[i])) && (q < end ==> Blank(o[q]))
    ensures Then(done, Parse(o[p..end])) == Then(WithFile(done, o[p], o[a..q]), Parse(o[q..end]))
  {
    hide *;
    ArrowSlices(o, p, a, q, end);
    SpacesIs(o[p + 1..end], a - p - 1);
    NameLenIs(o[a..end], q - a);
    assert o[p..end][0] == o[p];
    ArrowUnfold(o[p..end], a - p, q - a);
    ThenFile(done, o[p], o[a..q], Parse(o[q..end]));
  }

  lemma ArrowSlices(o: string, p: nat, a: nat, q: nat, end: nat)
    requires p < a <= q <= end <= |o|
    ensures o[p..end][1..] == o[p + 1..end] && o[p..end][a - p..] == o[a..end]
    ensures o[a..end][..q - a] == o[a..q] && o[a..end][q - a..] == o[q..end]
  {
  }

  lemma ThenFile(done: Cmd, c: char, name: string, rest: Cmd)
    ensures Then(done, FileThen(c, name, rest)) == Then(WithFile(done, c, name), rest)
  {
  }

  lemma ArrowUnfold(t: string, a: nat, n: nat)
    requires t != "" && Arrow(t[0]) && a <= |t| && n <= |t[a..]| && a == 1 + Spaces(t[1..]) && n == NameLen(t[a..])
    ensures Parse(t) == FileThen(t[0], t[a..][..n], Parse(t[a..][n..]))
  {
  }

  /** Writes a NUL over the arrow at p, skips spaces, and passes a file name: from name to q. */
  method PassFileName(buf: array<char>, p: nat, ghost end: nat) returns (name: nat, q: nat)
    requires p < end && Terminated(buf[..], p, end) && Arrow(buf[p])
    modifies buf
    ensures buf[..] == old(buf[..])[p := NUL]
    ensures p < name <= q <= end
    ensures (forall i | p < i < name :: buf[i] == ' ') && (name < end ==> buf[name] != ' ')
    ensures (forall i | name <= i < q :: !Blank(buf[i])) && (q < end ==> Blank(buf[q]))
  {
    buf[p] := NUL;
    q := p + 1;
    while buf[q] == ' '
      invariant p < q <= end && buf[..] == old(buf[..])[p := NUL] && forall i | p < i < q :: buf[i] == ' '
      decreases end - q
    {
      q := q + 1;
    }
    name := q;
    while buf[q] != NUL && buf[q] != ' ' && buf[q] != '\n'
      invariant name <= q <= end && buf[..] == old(buf[..])[p := NUL]
      invariant forall i | name <= i < q :: !Blank(buf[i])
      decreases end - q
    {
      q := q + 1;
    }
  }

  /** Passes the word that starts at p. */
  method PassWord(buf: array<char>, p: nat, ghost end: nat) returns (q: nat)
    requires p < end && Terminated(buf[..], p, end) && !Blank(buf[p]) && !Arrow(buf[p])
    ensures p < q <= end
    ensures (forall i | p <= i < q :: !Blank(buf[i]) && !Arrow(buf[i])) && (q < end ==> Blank(buf[q]) || Arrow(buf[q]))
  {
    q := p;
    while buf[q] != NUL && buf[q] != ' ' && buf[q] != '\n' && buf[q] != '<' && buf[q] != '>'
      invariant p <= q <= end && forall i | p <= i < q :: !Blank(buf[i]) && !Arrow(buf[i])
      decreases end - q
    {
      q := q + 1;
    }
  }

  /** The state of the scan at p: what was found, and what is left, make up the command. */
  ghost predicate Scan(o: seq<char>, buf: seq<char>, argv: seq<int>, infile: int, outfile: int, done: Cmd,
                       start: nat, p: nat, end: nat)
    requires start <= p <= end < |buf| && |o| == |buf| && |done.words| <= |argv|
  {
    && buf[..start] == o[..start] && buf[p..] == o[p..]
    && Parse(o[start..end]) == Then(done, Parse(o[p..end]))
    && AllPassed(buf, argv, infile, outfile, done, p, end)
  }

  lemma ScanStart(o: seq<char>, argv: seq<int>, start: nat, end: nat)
    requires start <= end < |o|
    ensures Scan(o, o, argv, -1, -1, Cmd([], None, None), start, start, end)
  {
    ThenNothing(Parse(o[start..end]));
  }

  lemma ScanFacts(o: seq<char>, buf: seq<char>, argv: seq<int>, infile: int, outfile: int, done: Cmd,
                  start: nat, p: nat, end: nat)
    requires start <= p <= end < |buf| && |o| == |buf| && |done.words| <= |argv|
    requires Scan(o, buf, argv, infile, outfile, done, start, p, end)
    requires Terminated(o, start, end) && |Parse(o[start..end]).words| < MAXARGS
    ensures Terminated(buf, p, end) && |done.words| < MAXARGS
    ensures buf[..start] == o[..start] && buf[end..] == o[end..]
  {
    hide Parse, AllPassed;
    assert forall i | p <= i < |o| :: o[i] == o[p..][i - p] == buf[p..][i - p] == buf[i];
  }

  /** The loop over the blanks in front of a word or an arrow: each becomes a NUL. */
  method PassBlanks(buf: array<char>, p0: nat, ghost o: seq<char>, ghost argv: seq<int>, ghost infile: int,
                    ghost outfile: int, ghost done: Cmd, ghost start: nat, ghost end: nat) returns (p: nat)
    requires start <= p0 <= end < buf.Length == |o| && |done.words| <= |argv|
    requires Terminated(buf[..], p0, end) && Scan(o, buf[..], argv, infile, outfile, done, start, p0, end)
    modifies buf
    ensures p0 <= p <= end && Terminated(buf[..], p, end) && !Blank(buf[p])
    ensures Scan(o, buf[..], argv, infile, outfile, done, start, p, end)
  {
    hide Scan;
    p := p0;
    while buf[p] == ' ' || buf[p] == '\n'
      invariant p0 <= p <= end && Terminated(buf[..], p, end)
      invariant Scan(o, buf[..], argv, infile, outfile, done, start, p, end)
      decreases end - p
    {
      ScanBlank(o, buf[..], argv, infile, outfile, done, start, p, end);
      ghost var was := buf[..];
      buf[p] := NUL;
      assert buf[..] == was[p := NUL];
      p := p + 1;
    }
  }

  /** `*p++ = 0` over a blank */
  lemma ScanBlank(o: seq<char>, buf: seq<char>, argv: seq<int>, infile: int, outfile: int, done: Cmd,
                  start: nat, p: nat, end: nat)
    requires start <= p < end < |buf| && |o| == |buf| && |done.words| <= |argv| && Blank(buf[p])
    requires Scan(o, buf, argv, infile, outfile, done, start, p, end)
    ensures Scan(o, buf[p := NUL], argv, infile, outfile, done, start, p + 1, end)
  {
    hide Parse, Then, AllPassed, AllSettled;
    assert o[p] == o[p..][0] == buf[p..][0] == buf[p];
    ParseBlank(o, p, end);
    Close(buf, argv, infile, outfile, done, p, end);
    SettledLater(buf[p := NUL], argv, infile, outfile, done, p + 1, p + 1, end);
    assert buf[p := NUL][p + 1..] == buf[p..][1..];
    assert buf[p := NUL][..start] == buf[..start];
  }

  /** A redirection: the arrow at p has been overwritten, the name lies at a..q. */
  lemma ScanFile(o: seq<char>, buf: seq<char>, argv: seq<int>, infile: int, outfile: int, done: Cmd,
                 start: nat, p: nat, a: nat, q: nat, end: nat)
    requires start <= p < a <= q <= end < |buf| && |o| == |buf| && |done.words| <= |argv| && Arrow(buf[p])
    requires Scan(o, buf, argv, infile, outfile, done, start, p, end)
    requires (forall i | p < i < a :: buf[i] == ' ') && (a < end ==> buf[a] != ' ')
    requires (forall i | a <= i < q :: !Blank(buf[i])) && (q < end ==> Blank(buf[q]))
    ensures Scan(o, buf[p := NUL], argv, if buf[p] == '<' then a else infile, if buf[p] == '<' then outfile else a,
                 WithFile(done, buf[p], o[a..q]), start, q, end)
  {
    SameRest(o, buf, start, p, a, q);
    hide Parse, Then, AllPassed, AllSettled, WithFile;
    var buf' := buf[p := NUL];
    ParseArrow(o, p, a, q, end, done);
    Close(buf, argv, infile, outfile, done, p, end);
    SettledLater(buf', argv, infile, outfile, done, p + 1, q, end);
    NameFound(o, buf', argv, infile, outfile, done, buf[p], a, q, end);
  }

  lemma SameRest(o: seq<char>, buf: seq<char>, start: nat, p: nat, a: nat, q: nat)
    requires start <= p < a <= q <= |buf| == |o| && buf[..start] == o[..start] && buf[p..] == o[p..]
    ensures forall i | p <= i < |o| :: o[i] == buf[i]
    ensures buf[p := NUL][q..] == o[q..] && buf[p := NUL][..start] == o[..start] && buf[p := NUL][a..q] == o[a..q]
  {
    assert forall i | p <= i < |o| :: o[i] == o[p..][i - p] == buf[p..][i - p] == buf[i];
  }

  /** The name at a..q joins what has been found. */
  lemma NameFound(o: seq<char>, buf: seq<char>, argv: seq<int>, infile: int, outfile: int, done: Cmd, c: char,
                  a: nat, q: nat, end: nat)
    requires a <= q <= end < |buf| && |o| == |buf| && |done.words| <= |argv|
    requires AllPassed(buf, argv, infile, outfile, done, q, end)
    requires buf[a..q] == o[a..q] && (q < end ==> Blank(buf[q]))
    ensures AllPassed(buf, argv, if c == '<' then a else infile, if c == '<' then outfile else a,
                      WithFile(done, c, o[a..q]), q, end)
  {
  }

  /** A word at p..q, whose address has gone into argv. */
  lemma ScanWord(o: seq<char>, buf: seq<char>, argv: seq<int>, infile: int, outfile: int, done: Cmd,
                 start: nat, p: nat, q: nat, end: nat)
    requires start <= p < q <= end < |buf| && |o| == |buf| && |done.words| < |argv|
    requires Scan(o, buf, argv, infile, outfile, done, start, p, end)
    requires (forall i | p <= i < q :: !Blank(buf[i]) && !Arrow(buf[i])) && (q < end ==> Blank(buf[q]) || Arrow(buf[q]))
    ensures Scan(o, buf, argv[|done.words| := p], infile, outfile, done.(words := done.words + [o[p..q]]),
                 start, q, end)
  {
    assert forall i | p <= i < |o| :: o[i] == o[p..][i - p] == buf[p..][i - p] == buf[i];
    assert buf[q..] == o[q..] && buf[p..q] == o[p..q];
    assert Parse(o[start..end]) == Then(done.(words := done.words + [o[p..q]]), Parse(o[q..end])) by {
      hide Parse, Then, AllPassed;
      ParseWord(o, p, q, end, done);
    }
    assert AllPassed(buf, argv, infile, outfile, done, q, end) by {
      hide Parse, Then, AllPassed, AllSettled;
      InFrontOfWord(buf, argv, infile, outfile, done, p, end);
      SettledLater(buf, argv, infile, outfile, done, p, q, end);
    }
    hide Parse, Then;
  }

  /** At the end of the command everything is found and closed. */
  lemma ScanEnd(o: seq<char>, buf: seq<char>, argv: seq<int>, infile: int, outfile: int, done: Cmd,
                start: nat, end: nat)
    requires start <= end < |buf| && |o| == |buf| && |done.words| <= |argv| && buf[end] == NUL
    requires Scan(o, buf, argv, infile, outfile, done, start, end, end)
    ensures Parse(o[start..end]) == done
    ensures forall k | 0 <= k < |done.words| :: CStringAt(buf, argv[k], done.words[k])
    ensures if done.infile.Some? then CStringAt(buf, infile, done.infile.value) else infile == -1
    ensures if done.outfile.Some? then CStringAt(buf, outfile, done.outfile.value) else outfile == -1
  {
    assert o[end..end] == "";
    assert done.words + [] == done.words;
  }

  /**
   parseline: splits the command at buf[start..end] in place, and fills argv with the
   addresses of its words, followed by a null. Addresses are indices into buf, -1 is null.
   */
  method ParseLine(buf: array<char>, start: nat, ghost end: nat, argv: array<int>)
    returns (argc: nat, infile: int, outfile: int)
    requires buf as object != argv && argv.Length == MAXARGS && Terminated(buf[..], start, end)
    requires |Parse(buf[start..end]).words| < MAXARGS
    modifies buf, argv
    ensures buf[..start] == old(buf[..start]) && buf[end..] == old(buf[end..])
    ensures var cmd := Parse(old(buf[start..end]));
            && argc == |cmd.words| && argv[argc] == -1
            && (forall k | 0 <= k < argc :: CStringAt(buf[..], argv[k], cmd.words[k]))
            && (if cmd.infile.Some? then CStringAt(buf[..], infile, cmd.infile.value) else infile == -1)
            && (if cmd.outfile.Some? then CStringAt(buf[..], outfile, cmd.outfile.value) else outfile == -1)
  {
    hide Parse, Scan;
    argc, infile, outfile := 0, -1, -1;
    var p := start;
    ghost var o := buf[..];
    ghost var done := Cmd([], None, None);
    ScanStart(o, argv[..], start, end);
    while buf[p] != NUL
      invariant start <= p <= end < buf.Length && argc == |done.words| <= MAXARGS
      invariant Scan(o, buf[..], argv[..], infile, outfile, done, start, p, end)
      invariant Terminated(buf[..], p, end)
      decreases end - p
    {
      p := PassBlanks(buf, p, o, argv[..], infile, outfile, done, start, end);
      if buf[p] == NUL {
        break;
      }
      ghost var was, a := buf[..], p;
      ScanFacts(o, was, argv[..], infile, outfile, done, start, p, end);
      if buf[p] == '<' {
        var name;
        name, p := PassFileName(buf, p, end);
        assert forall i | a < i < |was| :: was[i] == buf[i];
        ScanFile(o, was, argv[..], infile, outfile, done, start, a, name, p, end);
        infile := name;
        done := WithFile(done, '<', o[name..p]);
      } else if buf[p] == '>' {
        var name;
        name, p := PassFileName(buf, p, end);
        assert forall i | a < i < |was| :: was[i] == buf[i];
        ScanFile(o, was, argv[..], infile, outfile, done, start, a, name, p, end);
        outfile := name;
        done := WithFile(done, '>', o[name..p]);
      } else {
        ghost var av := argv[..];
        argv[argc] := p;
        argc := argc + 1;
        p := PassWord(buf, p, end);
        ScanWord(o, was, av, infile, outfile, done, start, a, p, end);
        done := done.(words := done.words + [o[a..p]]);
      }
      ScanFacts(o, buf[..], argv[..], infile, outfile, done, start, p, end);
    }
    ScanFacts(o, buf[..], argv[..], infile, outfile, done, start, p, end);
    ScanEnd(o, buf[..], argv[..], infile, outfile, done, start, end);
    argv[argc] := -1;
  }

  // ------------------------------------------------------------------- findpipe

  /** The position of the first '|', or the length when there is none. */
  function FirstBar(s: string): (k: nat)
    ensures k <= |s| && (k < |s| ==> s[k] == '|') && forall i | 0 <= i < k :: s[i] != '|'
  {
    if s == "" || s[0] == '|' then 0 else 1 + FirstBar(s[1..])
  }

  lemma {:induction false} FirstBarIs(s: string, k: nat)
    requires k <= |s| && (k < |s| ==> s[k] == '|') && forall i | 0 <= i < k :: s[i] != '|'
    ensures FirstBar(s) == k
  {
    if k > 0 {
      FirstBarIs(s[1..], k - 1);
    }
  }

  /** findpipe: cuts the line at its first '|' and returns the address behind it, -1 when there is none. */
  method FindPipe(buf: array<char>, start: nat, ghost end: nat) returns (right: int)
    requires Terminated(buf[..], start, end)
    modifies buf
    ensures var (s, k) := (old(buf[start..end]), FirstBar(old(buf[start..end])));
            if k < |s| then right == start + k + 1 && buf[..] == old(buf[..])[start + k := NUL]
            else right == -1 && buf[..] == old(buf[..])
  {
    ghost var s := buf[start..end];
    var p := start;
    while buf[p] != NUL
      invariant start <= p <= end && buf[..] == old(buf[..])
      invariant forall i | start <= i < p :: buf[i] != '|'
      decreases end - p
    {
      if buf[p] == '|' {
        FirstBarIs(s, p - start);
        buf[p] := NUL;
        return p + 1;
      }
      p := p + 1;
    }
    FirstBarIs(s, p - start);
    return -1;
  }
}
