/** The managed block at the top of `~/.ssh/config` (`ssh_config.rs`); a file is its text. */
module SshConfig {
  import opened Wire

  const BEGIN: string := "# >>> immurok managed " + "\U{2014} do not edit " + "(toggle in immurok app) >>>"
  const END: string := "# <<< immurok managed <<<"
  const HOST: string := "Host *"
  const AGENT: string := "    IdentityAgent "
  const NL: string := "\n"

  // ---- Text, as Rust's `str` cuts it ----

  /** `trim_matches('\n')` from either side. */
  function DropLeading(s: string): (r: string)
    ensures |r| <= |s|
  {
    if s != [] && s[0] == '\n' then DropLeading(s[1..]) else s
  }

  function DropTrailing(s: string): (r: string)
    ensures |r| <= |s|
  {
    if s != [] && s[|s| - 1] == '\n' then DropTrailing(s[..|s| - 1]) else s
  }

  function TrimNewlines(s: string): string {
    DropTrailing(DropLeading(s))
  }

  function FirstNewline(s: string): (n: nat)
    ensures n <= |s| && '\n' !in s[..n] && (n < |s| ==> s[n] == '\n')
  {
    if s == [] || s[0] == '\n' then 0 else 1 + FirstNewline(s[1..])
  }

  function ChopReturn(line: string): string {
    if line != [] && line[|line| - 1] == '\r' then line[..|line| - 1] else line
  }

  /** `lines()`: a carriage return goes only with a line feed, and a final line feed ends no extra line. */
  function Lines(s: string): seq<string> {
    if s == [] then []
    else
      var n := FirstNewline(s);
      if n == |s| then [s] else [ChopReturn(s[..n])] + Lines(s[n + 1..])
  }

  function Join(lines: seq<string>): string {
    if lines == [] then []
    else if |lines| == 1 then lines[0]
    else lines[0] + NL + Join(lines[1..])
  }

  predicate OccursAt(s: string, t: string, i: nat) {
    i + |t| <= |s| && s[i..i + |t|] == t
  }

  predicate Contains(s: string, t: string) {
    exists i: nat :: i <= |s| && OccursAt(s, t, i)
  }

  // ---- The block ----

  function Block(path: string): string {
    BEGIN + NL + (HOST + NL + (AGENT + path + NL + (END + NL)))
  }

  /** The first line from `from` on that is `sentinel` but for surrounding blanks. */
  function Position(lines: seq<string>, sentinel: string, from: nat): (r: Option<nat>)
    ensures r.Some? ==> from <= r.value < |lines|
    decreases |lines| - from
  {
    if from >= |lines| then None
    else if Trim(lines[from]) == sentinel then Some(from)
    else Position(lines, sentinel, from + 1)
  }

  function Strip(content: string): string {
    var lines := Lines(content);
    match Position(lines, BEGIN, 0)
    case None => content
    case Some(b) =>
      match Position(lines, END, b + 1)
      case None => content
      case Some(e) => TrimNewlines(Join(lines[..b] + lines[e + 1..]))
  }

  function Below(body: string): string {
    if body == [] then [] else NL + (body + NL)
  }

  function Enable(content: string, path: string): string {
    Block(path) + Below(Strip(content))
  }

  function Disable(content: string): string {
    if !Contains(content, BEGIN) then content
    else
      var body := Strip(content);
      if body == [] then [] else body + NL
  }

  /** `strip_block`, on the line vector it drains in place. */
  method StripBlock(content: string) returns (r: string)
    ensures r == Strip(content)
  {
    hide Trim, TrimNewlines, Join, Lines;
    var lines := Lines(content);
    var b := 0;
    while b < |lines| && Trim(lines[b]) != BEGIN
      invariant b <= |lines| && Position(lines, BEGIN, b) == Position(lines, BEGIN, 0)
    {
      b := b + 1;
    }
    if b == |lines| {
      return content;
    }
    var e := b + 1;
    while e < |lines| && Trim(lines[e]) != END
      invariant e <= |lines| && Position(lines, END, e) == Position(lines, END, b + 1)
    {
      e := e + 1;
    }
    if e == |lines| {
      return content;
    }
    lines := lines[..b] + lines[e + 1..];
    return TrimNewlines(Join(lines));
  }

  class ConfigFile {
    /** None while the file does not exist. */
    var content: Option<string>

    constructor (content: Option<string>)
      ensures this.content == content
    {
      this.content := content;
    }

    method EnableAgent(path: string)
      modifies this
      ensures content == Some(Enable(if old(content).Some? then old(content).value else [], path))
    {
      var body := StripBlock(if content.Some? then content.value else []);
      var text := Block(path);
      if body != [] {
        text := text + (NL + (body + NL));
      } else {
        text := text + [];
      }
      content := Some(text);
    }

    method DisableAgent()
      modifies this
      ensures content == if old(content).None? then None else Some(Disable(old(content).value))
    {
      if content.None? {
        return;
      }
      if !Contains(content.value, BEGIN) {
        return;
      }
      var body := StripBlock(content.value);
      content := Some(if body == [] then [] else body + NL);
    }
  }

  // ---- Lines and their joins ----

  lemma {:induction false} FirstNewlineIs(line: string, rest: string)
    requires '\n' !in line
    ensures FirstNewline(line + NL + rest) == |line|
  {
    if line != [] {
      assert line[0] in line;
      assert (line + NL + rest)[1..] == line[1..] + NL + rest;
      FirstNewlineIs(line[1..], rest);
    }
  }

  lemma LineComesOff(line: string, rest: string)
    requires '\n' !in line
    ensures Lines(line + NL + rest) == [ChopReturn(line)] + Lines(rest)
  {
    var s := line + NL + rest;
    FirstNewlineIs(line, rest);
    assert s[..|line|] == line && s[|line| + 1..] == rest;
  }

  predicate Unix(s: string) {
    '\r' !in s
  }

  lemma UnixCut(s: string, n: nat)
    requires Unix(s) && n <= |s|
    ensures Unix(s[..n]) && Unix(s[n..]) && ChopReturn(s[..n]) == s[..n]
  {
  }

  /** Without carriage returns, cutting a text that ends in a line feed and joining it again only loses that one. */
  lemma {:induction false} JoinLines(s: string)
    requires Unix(s)
    ensures Lines(s + NL) != [] && Join(Lines(s + NL)) == s
    decreases |s|
  {
    var n := FirstNewline(s);
    UnixCut(s, n);
    if n == |s| {
      assert s[..n] == s;
      LineComesOff(s, []);
      assert s + NL + [] == s + NL;
    } else {
      var line, rest := s[..n], s[n + 1..];
      UnixCut(s, n + 1);
      assert s == line + NL + rest;
      assert s + NL == line + NL + (rest + NL);
      LineComesOff(line, rest + NL);
      JoinLines(rest);
      var tail := Lines(rest + NL);
      assert ([line] + tail)[1..] == tail;
    }
  }

  // ---- The sentinels ----

  lemma {:induction false} TrimPlain(s: string)
    requires s != [] && !IsSpace(s[0]) && !IsSpace(s[|s| - 1])
    ensures Trim(s) == s
  {
    assert TrimStart(s) == s;
  }

  lemma SentinelsTrim()
    ensures Trim(BEGIN) == BEGIN && Trim(END) == END && Trim(HOST) == HOST
    ensures BEGIN != END && HOST != END && HOST != BEGIN
  {
    assert BEGIN[2] == '>' && END[2] == '<' && HOST[0] == 'H' && BEGIN[0] == '#' && END[0] == '#';
    assert BEGIN[|BEGIN| - 1] == '>' && END[|END| - 1] == '<' && HOST[|HOST| - 1] == '*';
    hide Trim;
    TrimPlain(BEGIN);
    TrimPlain(END);
    TrimPlain(HOST);
  }

  lemma LineTogether(a: string, b: string)
    ensures '\n' !in a + b <==> '\n' !in a && '\n' !in b
  {
  }

  lemma SentinelsAreLines()
    ensures '\n' !in BEGIN && '\n' !in END && '\n' !in HOST && '\n' !in AGENT
    ensures ChopReturn(BEGIN) == BEGIN && ChopReturn(END) == END && ChopReturn(HOST) == HOST
  {
    LineTogether("# >>> immurok managed " + "\U{2014} do not edit ", "(toggle in immurok app) >>>");
    LineTogether("# >>> immurok managed ", "\U{2014} do not edit ");
    assert BEGIN[|BEGIN| - 1] == '>' && END[|END| - 1] == '<' && HOST[|HOST| - 1] == '*';
  }

  lemma {:induction false} TrimEndKeeps(c: char, s: string)
    requires !IsSpace(c)
    ensures TrimEnd([c] + s) == [c] + TrimEnd(s)
  {
    if s != [] && IsSpace(s[|s| - 1]) {
      var t := [c] + s;
      assert t[..|t| - 1] == [c] + s[..|s| - 1];
      TrimEndKeeps(c, s[..|s| - 1]);
    }
  }

  lemma {:induction false} TrimStartSkips(blanks: string, s: string)
    requires (forall c | c in blanks :: IsSpace(c)) && s != [] && !IsSpace(s[0])
    ensures TrimStart(blanks + s) == s
  {
    if blanks == [] {
      assert blanks + s == s;
    } else {
      assert blanks[0] in blanks;
      assert (blanks + s)[1..] == blanks[1..] + s;
      TrimStartSkips(blanks[1..], s);
    }
  }

  /** Whatever the socket path, its line is neither sentinel. */
  lemma AgentLineIsPlain(path: string)
    ensures Trim(ChopReturn(AGENT + path)) != END && Trim(ChopReturn(AGENT + path)) != BEGIN
  {
    var line := ChopReturn(AGENT + path);
    assert END[0] == '#' && BEGIN[0] == '#' && AGENT[4] == 'I';
    assert AGENT[0] == ' ' && AGENT[1] == ' ' && AGENT[2] == ' ' && AGENT[3] == ' ';
    var blanks, rest := line[..4], line[5..];
    assert line == blanks + (['I'] + rest);
    hide TrimEnd, ChopReturn;
    TrimStartSkips(blanks, ['I'] + rest);
    TrimEndKeeps('I', rest);
  }

  lemma FourLines(a: string, b: string, c: string, d: string, rest: string)
    requires '\n' !in a && '\n' !in b && '\n' !in c && '\n' !in d
    ensures Lines(a + NL + (b + NL + (c + NL + (d + NL + rest))))
         == [ChopReturn(a)] + ([ChopReturn(b)] + ([ChopReturn(c)] + ([ChopReturn(d)] + Lines(rest))))
  {
    hide Lines, ChopReturn;
    LineComesOff(a, b + NL + (c + NL + (d + NL + rest)));
    LineComesOff(b, c + NL + (d + NL + rest));
    LineComesOff(c, d + NL + rest);
    LineComesOff(d, rest);
  }

  lemma BlockThen(a: string, b: string, c: string, d: string, rest: string)
    ensures a + (b + (c + d)) + rest == a + (b + (c + (d + rest)))
  {
    Associate(a, b + (c + d), rest);
    Associate(b, c + d, rest);
    Associate(c, d, rest);
  }

  lemma FourFirst(a: string, b: string, c: string, d: string, rest: seq<string>)
    ensures [a] + ([b] + ([c] + ([d] + rest))) == [a, b, c, d] + rest
  {
  }

  /** The lines of an enabled file: the block's four, then the rest. */
  lemma BlockLines(path: string, rest: string)
    requires '\n' !in path
    ensures Lines(Block(path) + rest) == [BEGIN, HOST, ChopReturn(AGENT + path), END] + Lines(rest)
  {
    SentinelsAreLines();
    BlockThen(BEGIN + NL, HOST + NL, AGENT + path + NL, END + NL, rest);
    hide Lines, ChopReturn;
    FourLines(BEGIN, HOST, AGENT + path, END, rest);
    FourFirst(BEGIN, HOST, ChopReturn(AGENT + path), END, Lines(rest));
  }

  /** In any vector of lines that starts like the block, the sentinels are found at its ends. */
  lemma FindsBlock(lines: seq<string>)
    requires |lines| >= 4 && Trim(lines[0]) == BEGIN && Trim(lines[1]) != END && Trim(lines[2]) != END && Trim(lines[3]) == END
    ensures Position(lines, BEGIN, 0) == Some(0) && Position(lines, END, 1) == Some(3)
  {
    hide Trim;
    assert Position(lines, END, 3) == Some(3);
    assert Position(lines, END, 2) == Position(lines, END, 3);
  }

  lemma StripTakesFour(content: string)
    requires |Lines(content)| >= 4 && Position(Lines(content), BEGIN, 0) == Some(0) && Position(Lines(content), END, 1) == Some(3)
    ensures Strip(content) == TrimNewlines(Join(Lines(content)[4..]))
  {
    hide Lines, Position, Join, TrimNewlines;
    assert Lines(content)[..0] + Lines(content)[4..] == Lines(content)[4..];
  }

  lemma FourOff(a: string, b: string, c: string, d: string, rest: seq<string>)
    ensures ([a, b, c, d] + rest)[4..] == rest
  {
  }

  /** Stripping an enabled file takes out the block on top, whatever is below it. */
  lemma StripsOwnBlock(path: string, rest: string)
    requires '\n' !in path
    ensures Strip(Block(path) + rest) == TrimNewlines(Join(Lines(rest)))
  {
    var agent := ChopReturn(AGENT + path);
    SentinelsTrim();
    AgentLineIsPlain(path);
    hide Trim, Lines, Join, TrimNewlines, ChopReturn, Block, Position, Strip;
    BlockLines(path, rest);
    FourOff(BEGIN, HOST, agent, END, Lines(rest));
    FindsBlock(Lines(Block(path) + rest));
    StripTakesFour(Block(path) + rest);
  }

  // ---- Trimming newlines ----

  lemma {:induction false} DropTrailingMore(s: string)
    ensures DropTrailing(s + NL) == DropTrailing(s)
  {
    assert (s + NL)[..|s|] == s;
  }

  /** A newline put in front, or behind, is trimmed again. */
  lemma TrimsAdded(s: string)
    ensures TrimNewlines(NL + s) == TrimNewlines(s)
  {
    assert (NL + s)[1..] == s;
  }

  lemma UnixTail(s: string)
    requires Unix(s) && s != []
    ensures Unix(s[1..]) && Unix(s[..|s| - 1])
  {
  }

  lemma {:induction false} DropLeadingStops(s: string)
    ensures DropLeading(s) != [] ==> DropLeading(s)[0] != '\n'
    ensures Unix(s) ==> Unix(DropLeading(s))
  {
    if s != [] && s[0] == '\n' {
      DropLeadingStops(s[1..]);
      if Unix(s) {
        UnixTail(s);
      }
      hide Unix;
    }
  }

  lemma {:induction false} DropTrailingKeepsStart(s: string)
    ensures DropTrailing(s) == s[..|DropTrailing(s)|]
    ensures DropTrailing(s) != [] ==> DropTrailing(s)[|DropTrailing(s)| - 1] != '\n'
    ensures Unix(s) ==> Unix(DropTrailing(s))
  {
    if s != [] && s[|s| - 1] == '\n' {
      DropTrailingKeepsStart(s[..|s| - 1]);
      var d := DropTrailing(s);
      assert s[..|s| - 1][..|d|] == s[..|d|];
    }
  }

  /** A trimmed text has nothing left to trim. */
  lemma TrimIsFinal(s: string)
    ensures TrimNewlines(TrimNewlines(s)) == TrimNewlines(s)
    ensures Unix(s) ==> Unix(TrimNewlines(s))
  {
    var d := DropLeading(s);
    DropLeadingStops(s);
    DropTrailingKeepsStart(d);
    var t := DropTrailing(d);
    if t != [] {
      assert t[0] == d[0];
    }
    assert DropLeading(t) == t && DropTrailing(t) == t;
  }

  lemma {:induction false} TrimAfterNewline(s: string)
    ensures TrimNewlines(s + NL) == TrimNewlines(s)
  {
    var t := s + NL;
    if s == [] {
      assert t[0] == '\n' && t[1..] == [] && DropLeading([]) == [];
      assert DropLeading(t) == [];
    } else if s[0] == '\n' {
      assert t[1..] == s[1..] + NL;
      TrimAfterNewline(s[1..]);
    } else {
      assert DropLeading(t) == t && DropLeading(s) == s;
      DropTrailingMore(s);
    }
  }

  // ---- What the toggle does to a file ----

  /** What is left of an enabled file once its block is taken out: what was below, less its outer newlines. */
  lemma StripUndoes(path: string, body: string)
    requires '\n' !in path && Unix(body)
    ensures Strip(Block(path) + Below(body)) == TrimNewlines(body)
  {
    StripsOwnBlock(path, Below(body));
    if body != [] {
      LineComesOff([], body + NL);
      assert [] + NL + (body + NL) == Below(body);
      JoinLines(body);
      var lines := Lines(body + NL);
      var all := [[]] + lines;
      assert all[1..] == lines && Join(all) == [] + NL + Join(lines);
      TrimsAdded(body);
    }
  }

  /** Enabling once more, for whatever path, moves nothing but the path and the outer newlines. */
  lemma EnableAgain(path: string, other: string, body: string)
    requires '\n' !in path && Unix(body)
    ensures Enable(Block(path) + Below(body), other) == Block(other) + Below(TrimNewlines(body))
  {
    StripUndoes(path, body);
  }

  predicate NoSentinel(content: string) {
    Position(Lines(content), BEGIN, 0).None?
  }

  function EnableAll(content: string, paths: seq<string>): string {
    if paths == [] then content else Enable(EnableAll(content, paths[..|paths| - 1]), paths[|paths| - 1])
  }

  predicate PlainPaths(paths: seq<string>) {
    forall k :: 0 <= k < |paths| ==> '\n' !in paths[k]
  }

  /**
   * However often and for whatever paths the agent is enabled, the file is the last path's block on top of the text that
   * was there before: unchanged the first time, without its outer newlines after that.
   */
  lemma {:induction false} OneBlockOnTop(content: string, paths: seq<string>)
    requires Unix(content) && NoSentinel(content) && paths != [] && PlainPaths(paths)
    ensures EnableAll(content, paths) ==
      Block(paths[|paths| - 1]) + Below(if |paths| == 1 then content else TrimNewlines(content))
  {
    var n := |paths| - 1;
    if n == 0 {
      assert paths[..0] == [];
    } else {
      OneBlockOnTop(content, paths[..n]);
      TrimIsFinal(content);
      EnableAgain(paths[n - 1], paths[n], if n == 1 then content else TrimNewlines(content));
    }
  }

  lemma BlockContainsBegin(path: string, rest: string)
    ensures Contains(Block(path) + rest, BEGIN)
  {
    var s := Block(path) + rest;
    assert s == BEGIN + (NL + (HOST + NL + (AGENT + path + NL + (END + NL))) + rest);
    assert s[0..0 + |BEGIN|] == BEGIN;
    assert OccursAt(s, BEGIN, 0);
  }

  /** Disabling then restores the text that was there before the first enable, up to its outer newlines. */
  lemma DisableRestores(content: string, paths: seq<string>)
    requires Unix(content) && NoSentinel(content) && paths != [] && PlainPaths(paths)
    ensures var restored := Disable(EnableAll(content, paths));
      && TrimNewlines(restored) == TrimNewlines(content)
      && restored == if TrimNewlines(content) == [] then [] else TrimNewlines(content) + NL
  {
    var last, body := paths[|paths| - 1], if |paths| == 1 then content else TrimNewlines(content);
    OneBlockOnTop(content, paths);
    TrimIsFinal(content);
    BlockContainsBegin(last, Below(body));
    StripUndoes(last, body);
    TrimAfterNewline(TrimNewlines(content));
    hide Contains, Strip, TrimNewlines, Block;
  }

  /** From the second time on, enabling for the same path changes nothing; the first time already, if and only if nothing is to trim. */
  lemma EnableSettles(content: string, path: string)
    requires Unix(content) && NoSentinel(content) && '\n' !in path
    ensures var twice := Enable(Enable(content, path), path);
      Enable(twice, path) == twice
    ensures Enable(Enable(content, path), path) == Enable(content, path) <==> TrimNewlines(content) == content
  {
    TrimIsFinal(content);
    EnableAgain(path, path, content);
    EnableAgain(path, path, TrimNewlines(content));
    assert Enable(content, path) == Block(path) + Below(content);
    hide Enable, Block, TrimNewlines;
    SameBelow(Block(path), content, TrimNewlines(content));
  }

  lemma SameTail(front: string, a: string, b: string)
    requires front + a == front + b
    ensures a == b
  {
    assert (front + a)[|front|..] == a && (front + b)[|front|..] == b;
  }

  lemma BelowTellsBody(a: string)
    requires a != []
    ensures Below(a) != [] && Below(a)[1..|Below(a)| - 1] == a
  {
  }

  lemma SameBelow(block: string, a: string, b: string)
    ensures block + Below(a) == block + Below(b) <==> a == b
  {
    if a != [] {
      BelowTellsBody(a);
    }
    if b != [] {
      BelowTellsBody(b);
    }
    assert Below([]) == [];
    hide Below;
    if block + Below(a) == block + Below(b) {
      SameTail(block, Below(a), Below(b));
    }
  }

  /** Without carriage returns, one more line feed at the end adds an empty line or none. */
  lemma {:induction false} LinesMore(s: string)
    requires Unix(s)
    ensures Lines(s + NL) == Lines(s) || Lines(s + NL) == Lines(s) + [[]]
    decreases |s|
  {
    var n := FirstNewline(s);
    if n == |s| {
      assert s[..n] == s;
      UnixCut(s, n);
      LineComesOff(s, []);
      assert s + NL + [] == s + NL;
    } else {
      var line, rest := s[..n], s[n + 1..];
      UnixCut(s, n);
      UnixCut(s, n + 1);
      assert s == line + NL + rest && s + NL == line + NL + (rest + NL);
      LineComesOff(line, rest);
      LineComesOff(line, rest + NL);
      LinesMore(rest);
      Associates(line, Lines(rest));
    }
  }

  lemma Associates(line: string, lines: seq<string>)
    ensures [line] + (lines + [[]]) == [line] + lines + [[]]
  {
  }

  lemma {:induction false} PositionNone(lines: seq<string>, sentinel: string, from: nat)
    ensures Position(lines, sentinel, from).None? <==> forall k :: from <= k < |lines| ==> Trim(lines[k]) != sentinel
    decreases |lines| - from
  {
    hide Trim;
    if from < |lines| {
      PositionNone(lines, sentinel, from + 1);
    }
  }

  lemma {:induction false} PositionIs(lines: seq<string>, sentinel: string, from: nat, k: nat)
    requires from <= k < |lines| && Trim(lines[k]) == sentinel && forall j :: from <= j < k ==> Trim(lines[j]) != sentinel
    ensures Position(lines, sentinel, from) == Some(k)
    decreases |lines| - from
  {
    if from < k {
      PositionIs(lines, sentinel, from + 1, k);
    }
  }

  lemma {:induction false} PositionMeans(lines: seq<string>, sentinel: string, from: nat)
    requires Position(lines, sentinel, from).Some?
    ensures var k := Position(lines, sentinel, from).value;
      Trim(lines[k]) == sentinel && forall j :: from <= j < k ==> Trim(lines[j]) != sentinel
    decreases |lines| - from
  {
    if Trim(lines[from]) != sentinel {
      PositionMeans(lines, sentinel, from + 1);
    }
  }

  /** The lines of a text around its block: wherever that opens, it closes at the first line that says so. */
  datatype Division = Division(above: seq<string>, opening: string, inner: seq<string>, closing: string, below: seq<string>) {
    predicate Of(lines: seq<string>) {
      && lines == above + [opening] + inner + [closing] + below
      && LinesLack(above, BEGIN) && Trim(opening) == BEGIN && LinesLack(inner, END) && Trim(closing) == END
    }
  }

  lemma DividedAt(lines: seq<string>, d: Division)
    requires d.Of(lines)
    ensures var b, e := |d.above|, |d.above| + 1 + |d.inner|;
      Position(lines, BEGIN, 0) == Some(b) && Position(lines, END, b + 1) == Some(e) && lines[..b] + lines[e + 1..] == d.above + d.below
  {
    var b, e := |d.above|, |d.above| + 1 + |d.inner|;
    assert lines[b] == d.opening && lines[e] == d.closing && lines[..b] == d.above && lines[e + 1..] == d.below;
    assert forall j :: 0 <= j < b ==> lines[j] == d.above[j];
    assert forall j :: b < j < e ==> lines[j] == d.inner[j - b - 1];
    hide Trim;
    PositionIs(lines, BEGIN, 0, b);
    PositionIs(lines, END, b + 1, e);
  }

  lemma BlockDivides(lines: seq<string>, b: nat, e: nat) returns (d: Division)
    requires Position(lines, BEGIN, 0) == Some(b) && Position(lines, END, b + 1) == Some(e)
    ensures d.Of(lines) && d.above == lines[..b] && d.below == lines[e + 1..]
  {
    PositionMeans(lines, BEGIN, 0);
    PositionMeans(lines, END, b + 1);
    assert LinesLack(lines[..b], BEGIN) && Trim(lines[b]) == BEGIN;
    assert LinesLack(lines[b + 1..e], END) && Trim(lines[e]) == END;
    hide *;
    CutInFive(lines, b, e);
    d := Division(lines[..b], lines[b], lines[b + 1..e], lines[e], lines[e + 1..]);
  }

  lemma CutInFive(lines: seq<string>, b: nat, e: nat)
    requires b < e < |lines|
    ensures lines == lines[..b] + [lines[b]] + lines[b + 1..e] + [lines[e]] + lines[e + 1..]
  {
  }

  /** A text with a block, wherever it is, loses that and the newlines at the ends of the rest; one without keeps all it has. */
  lemma StripMeans(content: string) returns (d: Option<Division>)
    ensures d.Some? ==> d.value.Of(Lines(content)) && Strip(content) == TrimNewlines(Join(d.value.above + d.value.below))
    ensures d.None? ==> Strip(content) == content && forall x: Division :: !x.Of(Lines(content))
  {
    var lines := Lines(content);
    hide Trim, TrimNewlines, Join, Lines;
    var b, e := Position(lines, BEGIN, 0), if Position(lines, BEGIN, 0).Some? then Position(lines, END, Position(lines, BEGIN, 0).value + 1) else None;
    if e.Some? {
      var division := BlockDivides(lines, b.value, e.value);
      d := Some(division);
    } else {
      d := None;
      forall x: Division ensures !x.Of(lines) {
        if x.Of(lines) {
          DividedAt(lines, x);
        }
      }
    }
  }

  predicate AllNewlines(s: string) {
    forall i :: 0 <= i < |s| ==> s[i] == '\n'
  }

  lemma {:induction false} LeadingMeans(s: string) returns (before: string)
    ensures s == before + DropLeading(s) && AllNewlines(before)
  {
    before := [];
    if s != [] && s[0] == '\n' {
      var rest := LeadingMeans(s[1..]);
      before := [s[0]] + rest;
    }
  }

  lemma {:induction false} TrailingMeans(s: string) returns (after: string)
    ensures s == DropTrailing(s) + after && AllNewlines(after)
  {
    after := [];
    if s != [] && s[|s| - 1] == '\n' {
      var rest := TrailingMeans(s[..|s| - 1]);
      after := rest + [s[|s| - 1]];
    }
  }

  /** Only newlines are trimmed, and no newline is left at either end. */
  lemma TrimmedNewlines(s: string) returns (before: string, after: string)
    ensures var t := TrimNewlines(s);
      && s == before + t + after && AllNewlines(before) && AllNewlines(after)
      && (t != [] ==> t[0] != '\n' && t[|t| - 1] != '\n')
  {
    before := LeadingMeans(s);
    after := TrailingMeans(DropLeading(s));
    DropLeadingStops(s);
    DropTrailingKeepsStart(DropLeading(s));
    var t := TrimNewlines(s);
    assert t != [] ==> t[0] == DropLeading(s)[0];
  }

  /** No line of the text is the sentinel. */
  predicate Lacks(content: string, sentinel: string) {
    LinesLack(Lines(content), sentinel)
  }

  predicate LinesLack(lines: seq<string>, sentinel: string) {
    forall k :: 0 <= k < |lines| ==> Trim(lines[k]) != sentinel
  }

  lemma LinesLackBoth(front: seq<string>, back: seq<string>, sentinel: string)
    ensures LinesLack(front + back, sentinel) <==> LinesLack(front, sentinel) && LinesLack(back, sentinel)
  {
    hide Trim;
    var all := front + back;
    assert forall k :: 0 <= k < |front| ==> all[k] == front[k];
    assert forall k :: 0 <= k < |back| ==> all[|front| + k] == back[k];
  }

  lemma EmptyLineLacks(sentinel: string)
    requires sentinel != []
    ensures LinesLack([[]], sentinel)
  {
    assert Trim([]) == [];
  }

  /** A newline in front or behind brings no sentinel and hides none. */
  lemma LacksBelowNewline(s: string, sentinel: string)
    requires sentinel != []
    ensures Lacks(NL + s, sentinel) <==> Lacks(s, sentinel)
  {
    LineComesOff([], s);
    assert [] + NL + s == NL + s;
    hide Lines, LinesLack;
    EmptyLineLacks(sentinel);
    LinesLackBoth([[]], Lines(s), sentinel);
  }

  lemma LacksAboveNewline(s: string, sentinel: string)
    requires Unix(s) && sentinel != []
    ensures Lacks(s + NL, sentinel) <==> Lacks(s, sentinel)
  {
    LinesMore(s);
    hide Lines, LinesLack;
    EmptyLineLacks(sentinel);
    LinesLackBoth(Lines(s), [[]], sentinel);
  }

  lemma {:induction false} DropLeadingLacks(s: string, sentinel: string)
    requires sentinel != [] && Lacks(s, sentinel)
    ensures Lacks(DropLeading(s), sentinel)
  {
    if s != [] && s[0] == '\n' {
      assert s == NL + s[1..];
      hide Lacks;
      LacksBelowNewline(s[1..], sentinel);
      DropLeadingLacks(s[1..], sentinel);
    }
  }

  lemma {:induction false} DropTrailingLacks(s: string, sentinel: string)
    requires Unix(s) && sentinel != [] && Lacks(s, sentinel)
    ensures Lacks(DropTrailing(s), sentinel)
  {
    if s != [] && s[|s| - 1] == '\n' {
      UnixTail(s);
      assert s == s[..|s| - 1] + NL;
      hide Lacks, Unix;
      LacksAboveNewline(s[..|s| - 1], sentinel);
      DropTrailingLacks(s[..|s| - 1], sentinel);
    }
  }

  /** Trimming the outer newlines brings no sentinel in. */
  lemma TrimLacks(s: string, sentinel: string)
    requires Unix(s) && sentinel != [] && Lacks(s, sentinel)
    ensures Lacks(TrimNewlines(s), sentinel)
  {
    DropLeadingStops(s);
    hide Lacks, Unix, DropLeading, DropTrailing;
    DropLeadingLacks(s, sentinel);
    DropTrailingLacks(DropLeading(s), sentinel);
  }

  lemma BelowLacks(content: string, sentinel: string)
    requires Unix(content) && sentinel != [] && Lacks(content, sentinel)
    ensures Lacks(Below(content), sentinel)
  {
    if content != [] {
      hide Lacks, Unix;
      LacksAboveNewline(content, sentinel);
      LacksBelowNewline(content + NL, sentinel);
    }
  }

  /** In a file that is a block on top of a body: the block's sentinels are where they belong, and the body adds none. */
  lemma BlockIsAlone(body: string, path: string)
    requires Unix(body) && '\n' !in path && Lacks(body, BEGIN)
    ensures var lines := Lines(Block(path) + Below(body));
      && Position(lines, BEGIN, 0) == Some(0) && Position(lines, BEGIN, 1) == None
      && Position(lines, END, 0) == Some(3) && (Lacks(body, END) ==> Position(lines, END, 4) == None)
      && lines[2] == ChopReturn(AGENT + path)
  {
    assert BEGIN != [] && END != [];
    SentinelsTrim();
    AgentLineIsPlain(path);
    BlockLines(path, Below(body));
    BelowLacks(body, BEGIN);
    assert Lacks(Below(body), BEGIN) ==> LinesLack(Lines(Below(body)), BEGIN);
    if Lacks(body, END) {
      BelowLacks(body, END);
      assert LinesLack(Lines(Below(body)), END);
    }
    hide *;
    AloneInFront(BEGIN, HOST, ChopReturn(AGENT + path), END, Lines(Below(body)));
  }

  lemma AloneInFront(a: string, b: string, c: string, d: string, below: seq<string>)
    requires Trim(a) == a && Trim(d) == d && a != d && Trim(b) !in {a, d} && Trim(c) !in {a, d}
    requires LinesLack(below, a)
    ensures var lines := [a, b, c, d] + below;
      && Position(lines, a, 0) == Some(0) && Position(lines, a, 1) == None
      && Position(lines, d, 0) == Some(3) && (LinesLack(below, d) ==> Position(lines, d, 4) == None)
  {
    hide Trim;
    var lines := [a, b, c, d] + below;
    PositionNone(lines, a, 1);
    PositionNone(lines, d, 4);
    assert Position(lines, d, 3) == Some(3);
    assert Position(lines, d, 2) == Some(3);
    assert Position(lines, d, 1) == Some(3);
  }

  /**
   * However often the agent was enabled, exactly one line opens a managed block, the first; the block's closing line is the
   * first of its kind, and the only one if the user's text has none; the socket line is the last path's.
   */
  lemma ExactlyOneBlock(content: string, paths: seq<string>)
    requires Unix(content) && NoSentinel(content) && paths != [] && PlainPaths(paths)
    ensures var lines := Lines(EnableAll(content, paths));
      && Position(lines, BEGIN, 0) == Some(0) && Position(lines, BEGIN, 1) == None
      && Position(lines, END, 0) == Some(3) && (Lacks(content, END) ==> Position(lines, END, 4) == None)
      && lines[2] == ChopReturn(AGENT + paths[|paths| - 1])
  {
    assert BEGIN != [] && END != [];
    OneBlockOnTop(content, paths);
    PositionNone(Lines(content), BEGIN, 0);
    assert Lacks(content, BEGIN);
    TrimIsFinal(content);
    TrimLacks(content, BEGIN);
    var last, body := paths[|paths| - 1], if |paths| == 1 then content else TrimNewlines(content);
    hide Lacks, Lines, TrimNewlines, Unix, EnableAll, Position, Block, Below, ChopReturn;
    if Lacks(content, END) {
      TrimLacks(content, END);
    }
    BlockIsAlone(body, last);
  }

  /** A block that opens and, further down, closes. */
  predicate HasBlock(content: string) {
    var lines := Lines(content);
    Position(lines, BEGIN, 0).Some? && Position(lines, END, Position(lines, BEGIN, 0).value + 1).Some?
  }

  /**
   * `disable` looks for the sentinel's text anywhere, `strip_block` only for a whole block of lines: without one the file
   * is left alone if and only if it does not mention the sentinel at all. Otherwise it grows by one newline each time.
   */
  lemma DisableWithoutBlock(content: string)
    requires !HasBlock(content)
    ensures Disable(content) == content <==> !Contains(content, BEGIN)
    ensures Contains(content, BEGIN) ==> Disable(content) == content + NL
  {
    assert Strip(content) == content;
    hide Strip, HasBlock;
    if Contains(content, BEGIN) {
      assert |BEGIN| > 0;
      assert content != [] && |content + NL| != |content|;
    }
  }

  /** Both kinds of such a file: the sentinel in the middle of a line, and a block that never closes. */
  lemma MentionGrows(content: string)
    requires Contains(content, BEGIN) && (NoSentinel(content) || Position(Lines(content), END, 0).None?)
    ensures Disable(content) == content + NL
  {
    PositionNone(Lines(content), END, 0);
    if Position(Lines(content), BEGIN, 0).Some? {
      PositionNone(Lines(content), END, Position(Lines(content), BEGIN, 0).value + 1);
    }
    assert !HasBlock(content);
    DisableWithoutBlock(content);
  }
}
