/**
 execline and runcmd of the shell: pipes wired across forks, for any number of commands.

 fork, dup, pipe and open succeed, and give the lowest free descriptors. Each process has
 its own descriptors and its own copy of the line.
 */
module Pipeline {
  import opened Parser
  import opened Wrappers

  // -------------------------------------------------------------- descriptors

  /** What a descriptor refers to. */
  datatype End =
    | Inherited(n: nat)
    | ReadEnd(pipe: nat) | WriteEnd(pipe: nat)
    | FileFrom(name: string) | FileTo(name: string)

  type Fds = map<nat, End>

  /** The lowest descriptor that is free, from n on. */
  function Lowest(fds: Fds, n: nat): (r: nat)
    ensures r >= n && r !in fds && forall m | n <= m < r :: m in fds
    decreases |fds|
  {
    if n in fds then LowestAfter(fds, n); Lowest(fds - {n}, n + 1) else n
  }

  lemma LowestAfter(fds: Fds, n: nat)
    requires n in fds
    ensures |fds - {n}| < |fds|
    ensures forall m | m != n :: m in fds <==> m in fds - {n}
  {
    assert (fds - {n}).Keys == fds.Keys - {n};
    assert |fds.Keys| == |fds| && |(fds - {n}).Keys| == |fds - {n}|;
  }

  /** A process: its descriptors, and its memory, of which only the line matters. */
  class Process {
    var fds: Fds
    const line: array<char>

    constructor (fds: Fds, line: array<char>)
      ensures this.fds == fds && this.line == line
    {
      this.fds := fds;
      this.line := line;
    }

    /** fork: a child with the same descriptors and a copy of the memory. */
    method Fork() returns (child: Process)
      ensures fresh(child) && fresh(child.line)
      ensures child.fds == fds && child.line[..] == line[..]
    {
      var copy := new char[line.Length](i requires 0 <= i < line.Length reads line => line[i]);
      assert copy[..] == line[..];
      child := new Process(fds, copy);
    }

    method Close(fd: nat)
      modifies `fds
      ensures fds == old(fds) - {fd}
    {
      fds := fds - {fd};
    }

    method Dup(fd: nat)
      requires fd in fds
      modifies `fds
      ensures fds == old(fds)[Lowest(old(fds), 0) := old(fds)[fd]]
    {
      fds := fds[Lowest(fds, 0) := fds[fd]];
    }

    method Open(end: End)
      modifies `fds
      ensures fds == old(fds)[Lowest(old(fds), 0) := end]
    {
      fds := fds[Lowest(fds, 0) := end];
    }
  }

  /** A process's table with its input and output replaced. */
  predicate Standard(fds: Fds) { 0 in fds && 1 in fds }

  /** How a call of runcmd ends: without a command, or in exec with these words and descriptors. */
  datatype Launch = Quit | Exec(argv: seq<string>, fds: Fds)

  /** What can be seen of the processes of a line: calls of runcmd, and shells that wait for two children. */
  datatype ShellEvent = Ran(text: string, fds: Fds, launch: Launch) | Waits(fds: Fds)

  /** The system: a supply of pipes, and the log of what happened. */
  class System {
    var pipes: nat
    ghost var log: seq<ShellEvent>

    constructor ()
      ensures pipes == 0 && log == []
    {
      pipes := 0;
      log := [];
    }

    /** pipe: two new descriptors of p. */
    method Pipe(p: Process) returns (r: nat, w: nat)
      modifies `pipes, p`fds
      ensures pipes == old(pipes) + 1
      ensures r == Lowest(old(p.fds), 0) && w !in old(p.fds) && w != r && w >= r
      ensures p.fds == old(p.fds)[r := ReadEnd(old(pipes))][w := WriteEnd(old(pipes))]
    {
      r := Lowest(p.fds, 0);
      p.fds := p.fds[r := ReadEnd(pipes)];
      w := Lowest(p.fds, 0);
      p.fds := p.fds[w := WriteEnd(pipes)];
      pipes := pipes + 1;
    }
  }

  // ------------------------------------------------------------------- runcmd

  /** The descriptors of a command after its redirections. */
  function Redirected(fds: Fds, cmd: Cmd): Fds {
    var f := if cmd.infile.Some? then fds[0 := FileFrom(cmd.infile.value)] else fds;
    if cmd.outfile.Some? then f[1 := FileTo(cmd.outfile.value)] else f
  }

  function LaunchOf(text: string, fds: Fds): Launch {
    var cmd := Parse(text);
    if cmd.words == [] then Quit else Exec(cmd.words, Redirected(fds, cmd))
  }

  /**
   What becomes of a command whose input is from and whose output is to: it quits exactly when
   it has no words. Otherwise the program that its words name has, as descriptor 0, the input
   file if the command names one and from if not, as descriptor 1 the same for the output file
   and to, and all other descriptors as they were.
   */
  ghost predicate Launches(text: string, from: End, to: End, fds: Fds, launch: Launch) {
    var cmd := Parse(text);
    match launch
    case Quit => cmd.words == []
    case Exec(argv, f) =>
      && cmd.words != [] && argv == cmd.words && Standard(f)
      && f[0] == (if cmd.infile.Some? then FileFrom(cmd.infile.value) else from)
      && f[1] == (if cmd.outfile.Some? then FileTo(cmd.outfile.value) else to)
      && (forall fd | fd > 1 :: fd in f <==> fd in fds)
      && (forall fd | fd > 1 && fd in fds :: f[fd] == fds[fd])
  }

  lemma LaunchMeaning(text: string, fds: Fds)
    requires Standard(fds)
    ensures Launches(text, fds[0], fds[1], fds, LaunchOf(text, fds))
  {
    hide Parse;
  }

  /** The string that a pointer into memory stands for. */
  method ReadString(buf: array<char>, a: int, ghost w: string) returns (s: string)
    requires CStringAt(buf[..], a, w) && NUL !in w
    ensures s == w
  {
    s := "";
    var i := 0;
    assert forall j | 0 <= j < |w| :: buf[a + j] == buf[..][a..a + |w|][j] == w[j];
    while buf[a + i] != NUL
      invariant 0 <= i <= |w| && s == w[..i]
      decreases |w| - i
    {
      s := s + [buf[a + i]];
      i := i + 1;
    }
  }

  /** Every character of the text is one of the line. */
  predicate Within(text: string, s: string) {
    forall c | c in text :: c in s
  }

  /** Words and names are made of characters of the line. */
  ghost predicate PartsWithin(cmd: Cmd, s: string) {
    && (forall w | w in cmd.words :: Within(w, s))
    && (cmd.infile.Some? ==> Within(cmd.infile.value, s))
    && (cmd.outfile.Some? ==> Within(cmd.outfile.value, s))
  }

  lemma PartsLater(cmd: Cmd, s: string, k: nat)
    requires k <= |s| && PartsWithin(cmd, s[k..])
    ensures PartsWithin(cmd, s)
  {
    assert Within(s[k..], s);
  }

  lemma {:induction false} PartsOf(s: string)
    ensures PartsWithin(Parse(s), s)
    decreases |s|
  {
    hide PartsWithin, Within, Spaces, NameLen, WordLen;
    if s == "" {
      NoParts(s);
    } else if Blank(s[0]) {
      PartsOf(s[1..]);
      PartsLater(Parse(s[1..]), s, 1);
    } else if Arrow(s[0]) {
      var k := 1 + Spaces(s[1..]);
      var t := s[k..];
      var n := NameLen(t);
      PartsOf(t[n..]);
      PartsLater(Parse(t[n..]), t, n);
      PartsLater(Parse(t[n..]), s, k);
      NameWithin(s, k, n, s[0], Parse(t[n..]));
    } else {
      var n := WordLen(s);
      PartsOf(s[n..]);
      PartsLater(Parse(s[n..]), s, n);
      WordWithin(s, n, Parse(s[n..]));
    }
  }

  lemma NoNulIn(cmd: Cmd, text: string)
    requires PartsWithin(cmd, text) && NUL !in text
    ensures forall w | w in cmd.words :: NUL !in w
    ensures cmd.infile.Some? ==> NUL !in cmd.infile.value
    ensures cmd.outfile.Some? ==> NUL !in cmd.outfile.value
  {
    forall w | w in cmd.words ensures NUL !in w {
      assert Within(w, text);
    }
  }

  lemma NoParts(s: string)
    ensures PartsWithin(Cmd([], None, None), s)
  {
  }

  lemma NameWithin(s: string, k: nat, n: nat, c: char, rest: Cmd)
    requires k <= |s| && n <= |s[k..]| && PartsWithin(rest, s)
    ensures PartsWithin(FileThen(c, s[k..][..n], rest), s)
  {
  }

  lemma WordWithin(s: string, n: nat, rest: Cmd)
    requires n <= |s| && PartsWithin(rest, s)
    ensures PartsWithin(rest.(words := [s[..n]] + rest.words), s)
  {
  }

  /** runcmd on the command at line[start..end]: parses it, redirects, and executes it. */
  method RunCmd(p: Process, start: nat, ghost end: nat, ghost sys: System)
    requires Standard(p.fds) && Terminated(p.line[..], start, end)
    requires |Parse(p.line[start..end]).words| < MAXARGS
    modifies p`fds, p.line, sys`log
    ensures sys.log == old(sys.log) + [Ran(old(p.line[start..end]), old(p.fds),
                                           LaunchOf(old(p.line[start..end]), old(p.fds)))]
    ensures Launches(old(p.line[start..end]), old(p.fds[0]), old(p.fds[1]), old(p.fds),
                     sys.log[|sys.log| - 1].launch)
  {
    hide Parse, PartsWithin, Terminated, Launches;
    TerminatedIn(p.line[..], start, end);
    ghost var text, fds0 := p.line[start..end], p.fds;
    ghost var cmd := Parse(text);
    PartsOf(text);
    NoNulIn(cmd, text);
    LaunchMeaning(text, fds0);
    var argv := new int[MAXARGS](_ => 0);
    var argc, infile, outfile := ParseLine(p.line, start, end, argv);
    if argc == 0 {
      sys.log := sys.log + [Ran(text, fds0, Quit)];
      return;
    }
    if infile != -1 {
      p.Close(0);
      var name := ReadString(p.line, infile, cmd.infile.value);
      p.Open(FileFrom(name));
    }
    if outfile != -1 {
      p.Close(1);
      var name := ReadString(p.line, outfile, cmd.outfile.value);
      p.Open(FileTo(name));
    }
    assert p.fds == Redirected(fds0, cmd);
    var words := ReadWords(p.line, argv, cmd.words);
    sys.log := sys.log + [Ran(text, fds0, Exec(words, p.fds))];
  }

  /** The arguments that exec finds: the strings of argv up to its null. */
  method ReadWords(buf: array<char>, argv: array<int>, ghost words: seq<string>) returns (ws: seq<string>)
    requires |words| < argv.Length && argv[|words|] == -1
    requires forall k | 0 <= k < |words| :: CStringAt(buf[..], argv[k], words[k]) && NUL !in words[k]
    ensures ws == words
  {
    ws := [];
    var k := 0;
    while argv[k] != -1
      invariant k <= |words| && ws == words[..k]
      decreases |words| - k
    {
      assert k < |words| && NUL !in words[k];
      var w := ReadString(buf, argv[k], words[k]);
      ws := ws + [w];
      k := k + 1;
    }
    assert k < |words| ==> CStringAt(buf[..], argv[k], words[k]);
  }

  // ------------------------------------------------------------------- execline

  /** The parts of a line between its bars. */
  function Segments(s: string): (segs: seq<string>)
    ensures |segs| > 0
    decreases |s|
  {
    var k := FirstBar(s);
    if k == |s| then [s] else [s[..k]] + Segments(s[k + 1..])
  }

  function Join(segs: seq<string>): string
    requires |segs| > 0
  {
    if |segs| == 1 then segs[0] else segs[0] + "|" + Join(segs[1..])
  }

  function Bars(s: string): nat {
    if s == "" then 0 else (if s[0] == '|' then 1 else 0) + Bars(s[1..])
  }

  /** Splitting at the bars loses nothing: as many parts as bars and one more, none with a bar in it. */
  lemma {:induction false} SegmentsJoin(s: string)
    ensures Join(Segments(s)) == s
    ensures |Segments(s)| == Bars(s) + 1
    ensures forall seg | seg in Segments(s) :: '|' !in seg
    decreases |s|
  {
    hide Segments, FirstBar, Join, Bars;
    var k := FirstBar(s);
    FirstSegment(s, k);
    NoBarBefore(s, k);
    BarsAt(s, k);
    if k < |s| {
      SegmentsJoin(s[k + 1..]);
      JoinMore(s[..k], Segments(s[k + 1..]));
      assert s == s[..k] + "|" + s[k + 1..];
    } else {
      JoinOne(s);
    }
  }

  lemma {:induction false} FirstSegment(s: string, k: nat)
    requires k == FirstBar(s)
    ensures Segments(s) == if k == |s| then [s] else [s[..k]] + Segments(s[k + 1..])
  {
    hide FirstBar;
  }

  lemma NoBarBefore(s: string, k: nat)
    requires k == FirstBar(s)
    ensures '|' !in s[..k] && s[..|s|] == s
  {
  }

  lemma JoinMore(first: string, rest: seq<string>)
    requires |rest| > 0
    ensures Join([first] + rest) == first + "|" + Join(rest)
  {
    assert ([first] + rest)[1..] == rest;
  }

  lemma JoinOne(s: string)
    ensures Join([s]) == s
  {
  }

  lemma {:induction false} BarsAt(s: string, k: nat)
    requires k == FirstBar(s)
    ensures Bars(s) == if k == |s| then 0 else 1 + Bars(s[k + 1..])
  {
    BarsFrom(s, k);
    hide FirstBar;
    if k < |s| {
      assert s[k..][1..] == s[k + 1..];
    }
  }

  lemma {:induction false} BarsFrom(s: string, k: nat)
    requires k <= |s| && forall i | 0 <= i < k :: s[i] != '|'
    ensures Bars(s) == Bars(s[k..])
  {
    if k > 0 {
      BarsFrom(s[1..], k - 1);
      assert s[1..][k - 1..] == s[k..];
    } else {
      assert s[0..] == s;
    }
  }

  /** What execline makes of a line, for a process with descriptors fds, pipes being numbered from next. */
  function Events(text: string, fds: Fds, next: nat): seq<ShellEvent>
    decreases |text|
  {
    var k := FirstBar(text);
    if k == |text| then [Ran(text, fds, LaunchOf(text, fds))]
    else
      var left := fds[1 := WriteEnd(next)];
      [Ran(text[..k], left, LaunchOf(text[..k], left))]
      + Events(text[k + 1..], fds[0 := ReadEnd(next)], next + 1)
      + [Waits(fds)]
  }

  /** The events of a line with a bar, by its first command and the rest. */
  lemma {:induction false} EventsSplit(text: string, fds: Fds, next: nat, k: nat)
    requires k == FirstBar(text) < |text|
    ensures var (left, rest) := (fds[1 := WriteEnd(next)], text[k + 1..]);
            Events(text, fds, next) ==
            [Ran(text[..k], left, LaunchOf(text[..k], left))] + Events(rest, fds[0 := ReadEnd(next)], next + 1)
            + [Waits(fds)]
  {
  }

  lemma {:induction false} SegmentsSplit(text: string, k: nat)
    requires k == FirstBar(text) < |text|
    ensures |Segments(text)| == 1 + |Segments(text[k + 1..])|
  {
    hide FirstBar;
  }

  lemma EventsOne(text: string, fds: Fds, next: nat)
    requires FirstBar(text) == |text|
    ensures Events(text, fds, next) == [Ran(text, fds, LaunchOf(text, fds))] && Segments(text) == [text]
  {
  }

  predicate AllFit(segs: seq<string>) {
    forall seg | seg in segs :: |Parse(seg).words| < MAXARGS
  }

  /** The left child of a pipe: its output is the write end, and it has no other end of the pipe. */
  method ToLeft(c: Process, r: nat, w: nat, ghost fds: Fds, ghost id: nat)
    requires Standard(fds) && r !in fds && w !in fds && r != w
    requires c.fds == fds[r := ReadEnd(id)][w := WriteEnd(id)]
    modifies c`fds
    ensures c.fds == fds[1 := WriteEnd(id)]
  {
    c.Close(1);
    c.Dup(w);
    c.Close(r);
    c.Close(w);
    assert c.fds == fds[1 := WriteEnd(id)];
  }

  /** The right child: its input is the read end. */
  method ToRight(c: Process, r: nat, w: nat, ghost fds: Fds, ghost id: nat)
    requires Standard(fds) && r !in fds && w !in fds && r != w
    requires c.fds == fds[r := ReadEnd(id)][w := WriteEnd(id)]
    modifies c`fds
    ensures c.fds == fds[0 := ReadEnd(id)]
  {
    c.Close(0);
    c.Dup(r);
    c.Close(r);
    c.Close(w);
    assert c.fds == fds[0 := ReadEnd(id)];
  }

  /**
   execline on line[start..end]: a command without pipes is run; otherwise the left part is
   run by one child, the rest of the line by another, and the process waits for both.
   */
  method ExecLine(p: Process, start: nat, ghost end: nat, sys: System)
    requires Standard(p.fds) && Terminated(p.line[..], start, end)
    requires AllFit(Segments(p.line[start..end]))
    modifies p`fds, p.line, sys
    ensures sys.log == old(sys.log) + Events(old(p.line[start..end]), old(p.fds), old(sys.pipes))
    ensures sys.pipes == old(sys.pipes) + |Segments(old(p.line[start..end]))| - 1
    decreases end - start
  {
    hide Parse, LaunchOf, Events, Segments, FirstBar, Terminated, AllFit;
    TerminatedIn(p.line[..], start, end);
    OneFits(p.line[start..end]);
    ghost var text, fds0, id, log0 := p.line[start..end], p.fds, sys.pipes, sys.log;
    ghost var k, o := FirstBar(text), p.line[..];
    var right := FindPipe(p.line, start, end);
    if right == -1 {
      EventsOne(text, fds0, id);
      RunCmd(p, start, end, sys);
      return;
    }
    SegmentsSplit(text, k);
    CutLine(o, p.line[..], start, end, k);
    var r, w := sys.Pipe(p);
    LeftChild(p, start, start + k, r, w, sys, fds0, id);
    var rest := p.Fork();
    ToRight(rest, r, w, fds0, id);
    ExecLine(rest, right, end, sys);
    p.Close(r);
    p.Close(w);
    Reclosed(fds0, r, w, id);
    // wait(0); wait(0);
    LogSplit(log0, text, fds0, id, k, sys.log, Waits(p.fds));
    sys.log := sys.log + [Waits(p.fds)];
  }

  /** The child that runs the first command, with its output going to the pipe. */
  method LeftChild(p: Process, start: nat, ghost end: nat, r: nat, w: nat, ghost sys: System,
                   ghost fds: Fds, ghost id: nat)
    requires Standard(fds) && r !in fds && w !in fds && r != w
    requires p.fds == fds[r := ReadEnd(id)][w := WriteEnd(id)]
    requires Terminated(p.line[..], start, end) && |Parse(p.line[start..end]).words| < MAXARGS
    modifies sys`log
    ensures var (text, left) := (p.line[start..end], fds[1 := WriteEnd(id)]);
            sys.log == old(sys.log) + [Ran(text, left, LaunchOf(text, left))]
  {
    hide Parse, LaunchOf, Terminated;
    TerminatedIn(p.line[..], start, end);
    var left := p.Fork();
    assert left.line[start..end] == left.line[..][start..end] == p.line[start..end];
    ToLeft(left, r, w, fds, id);
    RunCmd(left, start, end, sys);
  }

  /** Closing both ends of a new pipe leaves the descriptors as they were. */
  lemma Reclosed(fds: Fds, r: nat, w: nat, id: nat)
    requires r !in fds && w !in fds && r != w
    ensures fds[r := ReadEnd(id)][w := WriteEnd(id)] - {r} - {w} == fds
  {
  }

  /** What the left part, the rest and the waiting process log is what the whole line is to log. */
  lemma LogSplit(log: seq<ShellEvent>, text: string, fds: Fds, id: nat, k: nat,
                 log1: seq<ShellEvent>, last: ShellEvent)
    requires k == FirstBar(text) < |text| && last == Waits(fds)
    requires var left := fds[1 := WriteEnd(id)];
             log1 == log + [Ran(text[..k], left, LaunchOf(text[..k], left))]
                     + Events(text[k + 1..], fds[0 := ReadEnd(id)], id + 1)
    ensures log1 + [last] == log + Events(text, fds, id)
  {
    EventsSplit(text, fds, id, k);
    hide Events, LaunchOf, FirstBar;
  }

  lemma OneFits(text: string)
    requires AllFit(Segments(text))
    ensures FirstBar(text) == |text| ==> |Parse(text).words| < MAXARGS
  {
  }

  lemma TerminatedIn(buf: seq<char>, start: nat, end: nat)
    requires Terminated(buf, start, end)
    ensures start <= end < |buf| && NUL !in buf[start..end]
  {
  }

  /** The line after findpipe: two commands, each with its NUL. */
  lemma {:induction false} CutLine(o: seq<char>, buf: seq<char>, start: nat, end: nat, k: nat)
    requires Terminated(o, start, end) && k == FirstBar(o[start..end]) < end - start
    requires buf == o[start + k := NUL]
    ensures Terminated(buf, start, start + k) && Terminated(buf, start + k + 1, end)
    ensures buf[start..start + k] == o[start..end][..k]
    ensures buf[start + k + 1..end] == o[start..end][k + 1..]
    ensures Segments(o[start..end]) == [buf[start..start + k]] + Segments(buf[start + k + 1..end])
    ensures AllFit(Segments(o[start..end])) ==>
              |Parse(buf[start..start + k]).words| < MAXARGS && AllFit(Segments(buf[start + k + 1..end]))
  {
  }

  // ---------------------------------------------------------------- the wiring

  /** The descriptors of command j of n: inner ends from the pipes, outer ends inherited. */
  function Table(fds: Fds, next: nat, j: nat, n: nat): Fds {
    var f := if j == 0 then fds else fds[0 := ReadEnd(next + j - 1)];
    if j + 1 == n then f else f[1 := WriteEnd(next + j)]
  }

  /** The descriptors of the shell that waits for command j and the rest of the line. */
  function WaitTable(fds: Fds, next: nat, j: nat): Fds {
    if j == 0 then fds else fds[0 := ReadEnd(next + j - 1)]
  }

  /**
   A line with n - 1 bars leads to exactly n calls of runcmd, on the parts of the line in
   order; the output of command j is pipe j's write end, and the input of command j + 1 its
   read end. n - 1 shells wait, none of them with a write end.
   */
  lemma {:induction false} Wiring(text: string, fds: Fds, next: nat)
    ensures var (es, segs) := (Events(text, fds, next), Segments(text));
            var n := |segs|;
            && |es| == 2 * n - 1
            && (forall j | 0 <= j < n :: es[j] == CommandEvent(segs, fds, next, j))
            && (forall j | 0 <= j < n - 1 :: WaitsAt(es, n, fds, next, j))
    decreases |text|
  {
    hide Events, Segments, LaunchOf, FirstBar;
    var k := FirstBar(text);
    if k == |text| {
      EventsOne(text, fds, next);
    } else {
      EventsSplit(text, fds, next, k);
      FirstSegment(text, k);
      Wiring(text[k + 1..], fds[0 := ReadEnd(next)], next + 1);
      WiringNext(Events(text, fds, next), Events(text[k + 1..], fds[0 := ReadEnd(next)], next + 1),
                 Segments(text), Segments(text[k + 1..]), fds, next, fds[0 := ReadEnd(next)], next + 1);
    }
  }

  /** The shell that waits for command j comes j-th from the end. */
  predicate WaitsAt(es: seq<ShellEvent>, n: nat, fds: Fds, next: nat, j: nat) {
    j < n - 1 && |es| == 2 * n - 1 && es[2 * n - 2 - j] == Waits(WaitTable(fds, next, j))
  }

  /** Call j of runcmd for a line with these segments. */
  function CommandEvent(segs: seq<string>, fds: Fds, next: nat, j: nat): ShellEvent
    requires j < |segs|
  {
    Ran(segs[j], Table(fds, next, j, |segs|), LaunchOf(segs[j], Table(fds, next, j, |segs|)))
  }

  /** One command in front of a line that is wired already. */
  lemma WiringNext(es: seq<ShellEvent>, es': seq<ShellEvent>, segs: seq<string>, segs': seq<string>,
                   fds: Fds, next: nat, fds': Fds, next': nat)
    requires fds' == fds[0 := ReadEnd(next)] && next' == next + 1
    requires |segs'| > 0 && |segs| == |segs'| + 1 && segs[1..] == segs' && |es'| == 2 * |segs'| - 1
    requires var left := fds[1 := WriteEnd(next)];
             es == [Ran(segs[0], left, LaunchOf(segs[0], left))] + es' + [Waits(fds)]
    requires forall j | 0 <= j < |segs'| :: es'[j] == CommandEvent(segs', fds', next', j)
    requires forall j | 0 <= j < |segs'| - 1 :: WaitsAt(es', |segs'|, fds', next', j)
    ensures forall j | 0 <= j < |segs| :: es[j] == CommandEvent(segs, fds, next, j)
    ensures forall j | 0 <= j < |segs| - 1 :: WaitsAt(es, |segs|, fds, next, j)
  {
    hide LaunchOf;
    var n := |segs|;
    forall j | 0 <= j < n ensures es[j] == CommandEvent(segs, fds, next, j) {
      if j > 0 {
        assert es[j] == es'[j - 1] && segs[j] == segs'[j - 1];
        SameChildTable(fds, next, j, n);
      }
    }
    forall j | 0 <= j < n - 1 ensures WaitsAt(es, n, fds, next, j) {
      if j > 0 {
        assert WaitsAt(es', |segs'|, fds', next', j - 1);
        assert es[2 * n - 2 - j] == es'[2 * |segs'| - 2 - (j - 1)];
        assert WaitTable(fds', next', j - 1) == WaitTable(fds, next, j);
      }
    }
  }

  lemma SameChildTable(fds: Fds, next: nat, j: nat, n: nat)
    requires 0 < j < n
    ensures Table(fds[0 := ReadEnd(next)], next + 1, j - 1, n - 1) == Table(fds, next, j, n)
  {
    assert fds[0 := ReadEnd(next)][0 := ReadEnd(next + j - 1)] == fds[0 := ReadEnd(next + j - 1)];
  }

  function FdsOf(e: ShellEvent): Fds { e.fds }

  /**
   Once every process has done its closes, pipe j's write end is open in exactly one place,
   command j's output, so that its reader gets an end of file; its read end is the input of
   command j + 1 and of no other command.
   */
  lemma OneWriter(text: string, fds: Fds, next: nat, j: nat, t: nat, fd: nat)
    requires Standard(fds) && forall x | x in fds :: fds[x] != WriteEnd(next + j) && fds[x] != ReadEnd(next + j)
    requires j + 1 < |Segments(text)| && t < |Events(text, fds, next)|
    ensures var f := FdsOf(Events(text, fds, next)[t]);
            && (fd in f && f[fd] == WriteEnd(next + j) <==> t == j && fd == 1)
            && (t < |Segments(text)| ==> (fd in f && f[fd] == ReadEnd(next + j) <==> t == j + 1 && fd == 0))
  {
    hide LaunchOf;
    Wiring(text, fds, next);
    var n := |Segments(text)|;
    if t >= n {
      assert WaitsAt(Events(text, fds, next), n, fds, next, 2 * n - 2 - t);
    }
  }

  /** The output of each command but the last goes to the next one; the outer ends are the shell's own. */
  lemma Connected(text: string, fds: Fds, next: nat, j: nat)
    requires Standard(fds) && j < |Segments(text)|
    ensures var (es, n) := (Events(text, fds, next), |Segments(text)|);
            && |es| == 2 * n - 1
            && Standard(FdsOf(es[j]))
            && FdsOf(es[j])[0] == (if j == 0 then fds[0] else ReadEnd(next + j - 1))
            && FdsOf(es[j])[1] == (if j + 1 == n then fds[1] else WriteEnd(next + j))
            && (forall fd | fd > 1 :: fd in FdsOf(es[j]) <==> fd in fds)
            && (forall fd | fd in fds && fd > 1 :: FdsOf(es[j])[fd] == fds[fd])
  {
    hide LaunchOf;
    Wiring(text, fds, next);
  }

  /** What command j of a line is executed with: a redirection goes before a pipe, a pipe before the shell's own. */
  lemma CommandsConnect(text: string, fds: Fds, next: nat, j: nat)
    requires Standard(fds) && j < |Segments(text)|
    ensures |Events(text, fds, next)| == 2 * |Segments(text)| - 1
    ensures var (n, e) := (|Segments(text)|, Events(text, fds, next)[j]);
            var from := if j == 0 then fds[0] else ReadEnd(next + j - 1);
            var to := if j + 1 == n then fds[1] else WriteEnd(next + j);
            e.Ran? && e.text == Segments(text)[j] && Launches(e.text, from, to, fds, e.launch)
  {
    hide Parse, LaunchOf, Events, Segments;
    Wiring(text, fds, next);
    Connected(text, fds, next, j);
    LaunchMeaning(Segments(text)[j], Table(fds, next, j, |Segments(text)|));
  }
}
