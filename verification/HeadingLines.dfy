/** The shapes of Markdown lines that the heading scanner of
    docs/fusioninfer/scripts/check-i18n-content.mjs tests for, and the regular expressions they are. */
module HeadingLines {
  import opened Api
  import opened Text
  import opened Regex

  /* ---- characters and lines ---- */

  predicate AllBlank(s: string) {
    forall i | 0 <= i < |s| :: Blank(s[i])
  }

  predicate OneLine(s: string) {
    forall i | 0 <= i < |s| :: !Terminator(s[i])
  }

  function TrimStart(s: string): string {
    if s == "" || !Space(s[0]) then s else TrimStart(s[1..])
  }

  function TrimEnd(s: string): string {
    if s == "" || !Space(s[|s| - 1]) then s else TrimEnd(s[..|s| - 1])
  }

  function StripBom(s: string): string {
    if s != "" && s[0] == '\U{FEFF}' then s[1..] else s
  }

  /** `split(/\r?\n/)`. */
  function Split(s: string): (lines: seq<string>)
    ensures lines != []
    ensures forall i | 0 <= i < |lines| :: '\n' !in lines[i]
  {
    if s == "" then [""]
    else if s[0] == '\n' then [""] + Split(s[1..])
    else if |s| >= 2 && s[0] == '\r' && s[1] == '\n' then [""] + Split(s[2..])
    else
      var rest := Split(s[1..]);
      [[s[0]] + rest[0]] + rest[1..]
  }

  /** The length of the leading run of c. */
  function RunOf(s: string, c: char): (n: nat)
    ensures n <= |s| && (forall i | 0 <= i < n :: s[i] == c) && (n < |s| ==> s[n] != c)
  {
    if s == "" || s[0] != c then 0 else 1 + RunOf(s[1..], c)
  }

  function BlankRun(s: string): (n: nat)
    ensures n <= |s| && AllBlank(s[..n]) && (n < |s| ==> !Blank(s[n]))
  {
    if s == "" || !Blank(s[0]) then 0
    else
      assert s[..1 + BlankRun(s[1..])] == [s[0]] + s[1..][..BlankRun(s[1..])];
      1 + BlankRun(s[1..])
  }

  /* ---- the shapes of lines ---- */

  datatype Fence = Fence(marker: char, length: nat)

  /** The line after up to three spaces. */
  function Unindented(line: string): Option<string> {
    if RunOf(line, ' ') <= 3 then Some(line[RunOf(line, ' ')..]) else None
  }

  function MarkerOf(s: string): char {
    if s != "" && s[0] == '~' then '~' else '`'
  }

  /** /^ {0,3}(`{3,}|~{3,})(.*)$/ */
  function OpeningFence(line: string): Option<Fence> {
    var u := Unindented(line);
    if u.None? then None
    else
      var n := RunOf(u.value, MarkerOf(u.value));
      if n >= 3 && OneLine(u.value[n..]) then Some(Fence(MarkerOf(u.value), n)) else None
  }

  /** /^ {0,3}(`+|~+)[ \t]*$/ */
  function ClosingFence(line: string): Option<Fence> {
    var u := Unindented(line);
    if u.None? then None
    else
      var n := RunOf(u.value, MarkerOf(u.value));
      if n >= 1 && AllBlank(u.value[n..]) then Some(Fence(MarkerOf(u.value), n)) else None
  }

  /** /^ {0,3}(#{1,6})(?:[ \t]+|$)(.*)$/, and the text of its second group. */
  function HeadingBody(line: string): Option<string> {
    var u := Unindented(line);
    if u.None? then None
    else
      var n := RunOf(u.value, '#');
      var rest := u.value[n..];
      if 1 <= n <= 6 && (rest == "" || Blank(rest[0])) && OneLine(rest) then Some(rest[BlankRun(rest)..]) else None
  }

  /** A closing line ends a fence of the same marker that is not longer. */
  predicate Closes(f: Fence, line: string) {
    var c := ClosingFence(line);
    c.Some? && c.value.marker == f.marker && c.value.length >= f.length
  }

  /** /^(?:---|\.\.\.)[ \t]*$/ */
  predicate EndsFrontMatter(line: string) {
    |line| >= 3 && (line[..3] == "---" || line[..3] == "...") && AllBlank(line[3..])
  }

  predicate HasFrontMatter(lines: seq<string>) {
    lines != [] && TrimEnd(TrimStart(lines[0])) == "---"
  }

  /* ---- these are the script's regular expressions ---- */

  const INDENT := Chars(SpaceChar, 0, AtMost(3))

  function Markers(least: nat): Re {
    Alt(Chars(Backtick, least, Unbounded), Chars(Tilde, least, Unbounded))
  }

  function FenceRe(least: nat, rest: Class): Re {
    Cat(INDENT, Cat(Markers(least), Chars(rest, 0, Unbounded)))
  }

  /** The end-of-line alternative of the heading expression leaves nothing for its second group. */
  const HEADING_REST := Alt(Word(""), Cat(Chars(TabOrSpace, 1, Unbounded), Chars(LineChar, 0, Unbounded)))
  const HASHES := Chars(HashSign, 1, AtMost(6))
  const HEADING_RE := Cat(INDENT, Cat(HASHES, HEADING_REST))

  lemma RunIs(s: string, c: char, x: string, rest: string)
    requires s == x + rest && (forall i | 0 <= i < |x| :: x[i] == c)
    ensures RunOf(s, c) >= |x|
    ensures rest == "" || rest[0] != c ==> RunOf(s, c) == |x|
  {
    assert forall i | 0 <= i < |x| :: s[i] == x[i];
    assert rest != "" ==> s[|x|] == rest[0];
  }

  lemma Outdents(line: string, x: string, rest: string)
    requires line == x + rest && Matches(INDENT, x) && rest != "" && rest[0] != ' '
    ensures Unindented(line) == Some(rest)
  {
    RunIs(line, ' ', x, rest);
  }

  lemma Indents(line: string) returns (x: string)
    requires Unindented(line).Some?
    ensures Matches(INDENT, x) && line == x + Unindented(line).value
  {
    x := line[..RunOf(line, ' ')];
  }

  lemma MarkersMean(least: nat, y: string)
    requires least >= 1
    ensures Matches(Markers(least), y) <==> |y| >= least && forall i | 0 <= i < |y| :: y[i] == MarkerOf(y)
  {
    assert Matches(Chars(Backtick, least, Unbounded), y) <==> |y| >= least && forall i | 0 <= i < |y| :: y[i] == '`';
    assert Matches(Chars(Tilde, least, Unbounded), y) <==> |y| >= least && forall i | 0 <= i < |y| :: y[i] == '~';
  }

  /** At least that many markers, then only characters of the class. */
  predicate FenceTail(least: nat, rest: Class, u: string) {
    RunOf(u, MarkerOf(u)) >= least && forall i | RunOf(u, MarkerOf(u)) <= i < |u| :: rest.Has(u[i])
  }

  lemma TailSplits(least: nat, rest: Class, u: string)
    requires least >= 1 && Matches(Cat(Markers(least), Chars(rest, 0, Unbounded)), u)
    ensures FenceTail(least, rest, u) && u != "" && u[0] != ' '
  {
    var y, z := Parts(Markers(least), Chars(rest, 0, Unbounded), u);
    MarkersMean(least, y);
    assert u[0] == y[0] == MarkerOf(y) == MarkerOf(u);
    RunIs(u, MarkerOf(u), y, z);
    assert forall i | |y| <= i < |u| :: u[i] == z[i - |y|];
  }

  lemma TailJoins(least: nat, rest: Class, u: string)
    requires least >= 1 && FenceTail(least, rest, u)
    ensures Matches(Cat(Markers(least), Chars(rest, 0, Unbounded)), u)
  {
    var n := RunOf(u, MarkerOf(u));
    MarkersMean(least, u[..n]);
    Joined(Markers(least), Chars(rest, 0, Unbounded), u[..n], u[n..]);
    assert u == u[..n] + u[n..];
  }

  lemma FenceMatches(least: nat, rest: Class, line: string)
    requires least >= 1
    ensures Matches(FenceRe(least, rest), line)
            <==> Unindented(line).Some? && FenceTail(least, rest, Unindented(line).value)
  {
    var tail := Cat(Markers(least), Chars(rest, 0, Unbounded));
    if Matches(Cat(INDENT, tail), line) {
      var x, u := Parts(INDENT, tail, line);
      TailSplits(least, rest, u);
      Outdents(line, x, u);
    }
    if Unindented(line).Some? && FenceTail(least, rest, Unindented(line).value) {
      var x := Indents(line);
      TailJoins(least, rest, Unindented(line).value);
      Joined(INDENT, tail, x, Unindented(line).value);
    }
  }

  lemma OpeningMatches(line: string)
    ensures OpeningFence(line).Some? <==> Matches(FenceRe(3, LineChar), line)
  {
    FenceMatches(3, LineChar, line);
    if Unindented(line).Some? {
      var u := Unindented(line).value;
      SuffixAll(u, RunOf(u, MarkerOf(u)));
    }
  }

  lemma ClosingMatches(line: string)
    ensures ClosingFence(line).Some? <==> Matches(FenceRe(1, TabOrSpace), line)
  {
    FenceMatches(1, TabOrSpace, line);
    if Unindented(line).Some? {
      var u := Unindented(line).value;
      SuffixAll(u, RunOf(u, MarkerOf(u)));
    }
  }

  lemma SuffixAll(u: string, n: nat)
    requires n <= |u|
    ensures OneLine(u[n..]) <==> forall i | n <= i < |u| :: LineChar.Has(u[i])
    ensures AllBlank(u[n..]) <==> forall i | n <= i < |u| :: TabOrSpace.Has(u[i])
  {
    assert forall i | n <= i < |u| :: u[i] == u[n..][i - n];
    assert forall i | 0 <= i < |u[n..]| :: u[n..][i] == u[n + i];
  }

  lemma FrontMatterEndMatches(line: string)
    ensures EndsFrontMatter(line) <==> Matches(Cat(Alt(Word("---"), Word("...")), Chars(TabOrSpace, 0, Unbounded)), line)
  {
    var marks, blanks := Alt(Word("---"), Word("...")), Chars(TabOrSpace, 0, Unbounded);
    if Matches(Cat(marks, blanks), line) {
      var x, y := Parts(marks, blanks, line);
      assert x == "---" || x == "..." by { assert Matches(Word("---"), x) || Matches(Word("..."), x); }
      assert line[..3] == x && line[3..] == y;
    }
    if EndsFrontMatter(line) {
      assert Matches(Word("---"), line[..3]) || Matches(Word("..."), line[..3]);
      Joined(marks, blanks, line[..3], line[3..]);
      assert line == line[..3] + line[3..];
    }
  }

  lemma HeadingRest(rest: string)
    ensures Matches(HEADING_REST, rest) <==> rest == "" || (Blank(rest[0]) && OneLine(rest))
  {
    var blanks, others := Chars(TabOrSpace, 1, Unbounded), Chars(LineChar, 0, Unbounded);
    if Matches(Cat(blanks, others), rest) {
      var x, y := Parts(blanks, others, rest);
      RestParts(rest, x, y);
    }
    if rest != "" && Blank(rest[0]) && OneLine(rest) {
      RestJoins(rest);
    }
    assert Matches(HEADING_REST, rest) <==> Matches(Word(""), rest) || Matches(Cat(blanks, others), rest);
  }

  lemma RestParts(rest: string, x: string, y: string)
    requires rest == x + y && x != "" && AllBlank(x) && OneLine(y)
    ensures Blank(rest[0]) && OneLine(rest)
  {
    assert forall i | 0 <= i < |rest| :: rest[i] == if i < |x| then x[i] else y[i - |x|];
  }

  lemma RestJoins(rest: string)
    requires rest != "" && Blank(rest[0]) && OneLine(rest)
    ensures Matches(Cat(Chars(TabOrSpace, 1, Unbounded), Chars(LineChar, 0, Unbounded)), rest)
  {
    Joined(Chars(TabOrSpace, 1, Unbounded), Chars(LineChar, 0, Unbounded), rest[..1], rest[1..]);
    assert rest == rest[..1] + rest[1..];
  }

  /** One to six hashes, then nothing or a blank and more of the line. */
  predicate HeadingTail(u: string) {
    var n := RunOf(u, '#');
    1 <= n <= 6 && (u[n..] == "" || (Blank(u[n]) && OneLine(u[n..])))
  }

  lemma HeadingTailMatches(u: string)
    ensures Matches(Cat(HASHES, HEADING_REST), u) <==> HeadingTail(u)
  {
    if Matches(Cat(HASHES, HEADING_REST), u) {
      var y, z := Parts(HASHES, HEADING_REST, u);
      HeadingRest(z);
      HeadingTailParts(u, y, z);
    }
    if HeadingTail(u) {
      HeadingTailJoins(u, RunOf(u, '#'));
    }
  }

  lemma HeadingTailParts(u: string, y: string, z: string)
    requires u == y + z && Matches(HASHES, y) && (z == "" || (Blank(z[0]) && OneLine(z)))
    ensures HeadingTail(u)
  {
    RunIs(u, '#', y, z);
    assert u[|y|..] == z;
  }

  lemma HeadingTailJoins(u: string, n: nat)
    requires HeadingTail(u) && n == RunOf(u, '#')
    ensures Matches(Cat(HASHES, HEADING_REST), u)
  {
    HeadingRest(u[n..]);
    assert u == u[..n] + u[n..];
    TailJoined(u, u[..n], u[n..]);
  }

  lemma TailJoined(u: string, y: string, z: string)
    requires u == y + z && Matches(HASHES, y) && Matches(HEADING_REST, z)
    ensures Matches(Cat(HASHES, HEADING_REST), u)
  {
    Joined(HASHES, HEADING_REST, y, z);
  }

  lemma HeadingTailStarts(u: string)
    requires HeadingTail(u)
    ensures u != "" && u[0] != ' '
  {
  }

  lemma HeadingMatches(line: string)
    ensures HeadingBody(line).Some? <==> Matches(HEADING_RE, line)
  {
    var tail := Cat(HASHES, HEADING_REST);
    if Matches(Cat(INDENT, tail), line) {
      var x, u := Parts(INDENT, tail, line);
      HeadingTailMatches(u);
      HeadingTailStarts(u);
      Outdents(line, x, u);
    }
    if Unindented(line).Some? && HeadingTail(Unindented(line).value) {
      var x := Indents(line);
      HeadingTailMatches(Unindented(line).value);
      Joined(INDENT, tail, x, Unindented(line).value);
    }
  }

  /* ---- what the expressions capture ---- */

  /** A way to match the fence expression: indent, markers, rest. */
  ghost predicate FenceSplit(least: nat, rest: Class, line: string, x: string, y: string, z: string) {
    line == x + (y + z) && Matches(INDENT, x) && Matches(Markers(least), y) && Matches(Chars(rest, 0, Unbounded), z)
  }

  /** f is the first group of the match: a run of f's marker, and as the group is greedy the longest
      that any way to match the line allows. */
  ghost predicate CapturesFence(least: nat, rest: Class, line: string, f: Fence) {
    && (exists x, y, z :: FenceSplit(least, rest, line, x, y, z) && |y| == f.length && f.length > 0 && y[0] == f.marker)
    && (forall x, y, z | FenceSplit(least, rest, line, x, y, z) :: |y| <= f.length)
  }

  lemma SplitMeans(least: nat, rest: Class, line: string, x: string, y: string, z: string)
    requires least >= 1 && FenceSplit(least, rest, line, x, y, z)
    ensures Unindented(line) == Some(y + z) && FenceTail(least, rest, y + z)
    ensures y != "" && y[0] == MarkerOf(y + z) && |y| <= RunOf(y + z, MarkerOf(y + z))
  {
    MarkersMean(least, y);
    Joined(Markers(least), Chars(rest, 0, Unbounded), y, z);
    TailSplits(least, rest, y + z);
    Outdents(line, x, y + z);
    assert (y + z)[0] == y[0];
    RunIs(y + z, MarkerOf(y + z), y, z);
  }

  lemma LongestSplit(least: nat, rest: Class, line: string) returns (x: string, y: string, z: string)
    requires least >= 1 && Unindented(line).Some? && FenceTail(least, rest, Unindented(line).value)
    ensures FenceSplit(least, rest, line, x, y, z)
    ensures var u := Unindented(line).value; |y| == RunOf(u, MarkerOf(u)) && y[0] == MarkerOf(u)
  {
    x := Indents(line);
    var u := Unindented(line).value;
    var n := RunOf(u, MarkerOf(u));
    y, z := u[..n], u[n..];
    MarkersMean(least, y);
    assert u == y + z;
  }

  lemma FenceCaptured(least: nat, rest: Class, line: string, f: Fence)
    requires least >= 1
    ensures CapturesFence(least, rest, line, f)
            <==> && Unindented(line).Some? && FenceTail(least, rest, Unindented(line).value)
                 && f == Fence(MarkerOf(Unindented(line).value), RunOf(Unindented(line).value, MarkerOf(Unindented(line).value)))
  {
    if CapturesFence(least, rest, line, f) {
      var x, y, z :| FenceSplit(least, rest, line, x, y, z) && |y| == f.length && f.length > 0 && y[0] == f.marker;
      SplitMeans(least, rest, line, x, y, z);
      var x', y', z' := LongestSplit(least, rest, line);
    }
    if Unindented(line).Some? && FenceTail(least, rest, Unindented(line).value)
       && f == Fence(MarkerOf(Unindented(line).value), RunOf(Unindented(line).value, MarkerOf(Unindented(line).value))) {
      var x, y, z := LongestSplit(least, rest, line);
      forall x', y', z' | FenceSplit(least, rest, line, x', y', z')
        ensures |y'| <= f.length
      {
        SplitMeans(least, rest, line, x', y', z');
      }
    }
  }

  /** The opening test answers with the marker and the length that the expression captures, */
  lemma OpeningCaptures(line: string, f: Fence)
    ensures OpeningFence(line) == Some(f) <==> CapturesFence(3, LineChar, line, f)
  {
    FenceCaptured(3, LineChar, line, f);
    if Unindented(line).Some? {
      var u := Unindented(line).value;
      SuffixAll(u, RunOf(u, MarkerOf(u)));
    }
  }

  /** and so does the closing test. */
  lemma ClosingCaptures(line: string, f: Fence)
    ensures ClosingFence(line) == Some(f) <==> CapturesFence(1, TabOrSpace, line, f)
  {
    FenceCaptured(1, TabOrSpace, line, f);
    if Unindented(line).Some? {
      var u := Unindented(line).value;
      SuffixAll(u, RunOf(u, MarkerOf(u)));
    }
  }

  /** A way to match the heading expression: indent, hashes, blanks, body. */
  ghost predicate HeadingSplit(line: string, x: string, y: string, w: string, body: string) {
    && line == x + (y + (w + body)) && Matches(INDENT, x) && Matches(HASHES, y)
    && ((w == "" && body == "") || (Matches(Chars(TabOrSpace, 1, Unbounded), w) && Matches(Chars(LineChar, 0, Unbounded), body)))
  }

  /** body is the second group of the match: what the greedy blanks leave of the line. */
  ghost predicate CapturesBody(line: string, body: string) {
    exists x, y, w :: HeadingSplit(line, x, y, w, body) && LongestBlanks(line, w)
  }

  ghost predicate LongestBlanks(line: string, w: string) {
    forall x', y', w', body' | HeadingSplit(line, x', y', w', body') :: |w'| <= |w|
  }

  lemma BlankRunIs(s: string, x: string, rest: string)
    requires s == x + rest && AllBlank(x)
    ensures BlankRun(s) >= |x|
    ensures rest == "" || !Blank(rest[0]) ==> BlankRun(s) == |x|
  {
    var n := BlankRun(s);
    assert forall i | 0 <= i < |x| :: s[i] == x[i];
    assert rest != "" ==> s[|x|] == rest[0];
    assert forall i | 0 <= i < n :: s[i] == s[..n][i];
  }

  lemma BlanksAndBody(w: string, body: string)
    requires (w == "" && body == "") || (Matches(Chars(TabOrSpace, 1, Unbounded), w) && Matches(Chars(LineChar, 0, Unbounded), body))
    ensures w + body == "" || (Blank((w + body)[0]) && OneLine(w + body))
    ensures |w| <= BlankRun(w + body)
  {
    var rest := w + body;
    assert forall i | 0 <= i < |rest| :: rest[i] == if i < |w| then w[i] else body[i - |w|];
    BlankRunIs(rest, w, body);
  }

  lemma TailOf(y: string, rest: string)
    requires Matches(HASHES, y) && (rest == "" || (Blank(rest[0]) && OneLine(rest)))
    ensures RunOf(y + rest, '#') == |y| && (y + rest)[|y|..] == rest && HeadingTail(y + rest)
  {
    RunIs(y + rest, '#', y, rest);
    assert (y + rest)[|y|..] == rest;
  }

  lemma HeadingSplitMeans(line: string, x: string, y: string, w: string, body: string)
    requires HeadingSplit(line, x, y, w, body)
    ensures Unindented(line) == Some(y + (w + body)) && HeadingTail(y + (w + body))
    ensures RunOf(y + (w + body), '#') == |y| && (y + (w + body))[|y|..] == w + body && |w| <= BlankRun(w + body)
  {
    BlanksAndBody(w, body);
    TailOf(y, w + body);
    HeadingTailStarts(y + (w + body));
    Outdents(line, x, y + (w + body));
  }

  /** The blanks of any split, against those of the whole tail. */
  lemma NotLonger(line: string, u: string, x: string, y: string, w: string, body: string)
    requires Unindented(line) == Some(u) && HeadingSplit(line, x, y, w, body)
    ensures |w| <= BlankRun(u[RunOf(u, '#')..])
  {
    HeadingSplitMeans(line, x, y, w, body);
  }

  /** The two parts of what follows the hashes. */
  lemma RestSplits(rest: string, w: string, body: string)
    requires rest == "" || (Blank(rest[0]) && OneLine(rest))
    requires w == rest[..BlankRun(rest)] && body == rest[BlankRun(rest)..]
    ensures rest == w + body
    ensures (w == "" && body == "") || (Matches(Chars(TabOrSpace, 1, Unbounded), w) && Matches(Chars(LineChar, 0, Unbounded), body))
  {
    assert forall i | 0 <= i < |body| :: body[i] == rest[BlankRun(rest) + i];
  }

  lemma HashPart(u: string, n: nat)
    requires n == RunOf(u, '#') && 1 <= n <= 6
    ensures Matches(HASHES, u[..n]) && u == u[..n] + u[n..]
  {
  }

  lemma CanonicalSplit(line: string, u: string) returns (x: string)
    requires Unindented(line) == Some(u) && HeadingTail(u)
    ensures var rest := u[RunOf(u, '#')..];
            HeadingSplit(line, x, u[..RunOf(u, '#')], rest[..BlankRun(rest)], rest[BlankRun(rest)..])
  {
    x := Indents(line);
    var n := RunOf(u, '#');
    var rest := u[n..];
    HashPart(u, n);
    RestSplits(rest, rest[..BlankRun(rest)], rest[BlankRun(rest)..]);
  }

  lemma LongestHeadingSplit(line: string) returns (x: string, y: string, w: string, body: string)
    requires Unindented(line).Some? && HeadingTail(Unindented(line).value)
    ensures HeadingSplit(line, x, y, w, body) && HeadingBody(line) == Some(body) && LongestBlanks(line, w)
  {
    var u := Unindented(line).value;
    var rest := u[RunOf(u, '#')..];
    x := CanonicalSplit(line, u);
    y, w, body := u[..RunOf(u, '#')], rest[..BlankRun(rest)], rest[BlankRun(rest)..];
    forall x', y', w', body' | HeadingSplit(line, x', y', w', body')
      ensures |w'| <= |w|
    {
      NotLonger(line, u, x', y', w', body');
    }
  }

  /** The heading test answers with the body that the expression captures. */
  lemma HeadingCaptures(line: string, body: string)
    ensures HeadingBody(line) == Some(body) <==> CapturesBody(line, body)
  {
    if Unindented(line).Some? && HeadingTail(Unindented(line).value) {
      var x, y, w, b := LongestHeadingSplit(line);
      if CapturesBody(line, body) {
        var x', y', w' :| HeadingSplit(line, x', y', w', body) && LongestBlanks(line, w');
        SameSplit(line, x, y, w, b, x', y', w', body);
      }
    }
    if CapturesBody(line, body) {
      var x, y, w :| HeadingSplit(line, x, y, w, body) && LongestBlanks(line, w);
      HeadingSplitMeans(line, x, y, w, body);
    }
  }

  lemma SameParts(a: string, b: string, a': string, b': string)
    requires a + b == a' + b' && |a| == |a'|
    ensures a == a' && b == b'
  {
    assert a == (a + b)[..|a|] == (a' + b')[..|a|] == a';
    assert b == (a + b)[|a|..] == (a' + b')[|a|..] == b';
  }

  lemma SameSplit(line: string, x: string, y: string, w: string, body: string, x': string, y': string, w': string, body': string)
    requires HeadingSplit(line, x, y, w, body) && HeadingSplit(line, x', y', w', body') && |w| == |w'|
    ensures body == body'
  {
    HeadingSplitMeans(line, x, y, w, body);
    HeadingSplitMeans(line, x', y', w', body');
    SameParts(y, w + body, y', w' + body');
    SameParts(w, body, w', body');
  }

  /* ---- fences in CommonMark ---- */

  /** A line that could open a fence but for its info string: at most three spaces, then at least three
      equal markers. */
  function FenceShape(line: string): Option<(Fence, string)> {
    var u := Unindented(line);
    if u.None? then None
    else
      var n := RunOf(u.value, MarkerOf(u.value));
      if n >= 3 then Some((Fence(MarkerOf(u.value), n), u.value[n..])) else None
  }

  /** What the script and CommonMark take for lines: the script splits at line feeds alone or behind a
      carriage return, section 2.1 of CommonMark 0.31.2 at carriage returns alone, too. */
  function MarkdownLines(s: string): (lines: seq<string>)
    ensures lines != []
    ensures forall i | 0 <= i < |lines| :: NoLineEnding(lines[i])
  {
    if s == "" then [""]
    else if |s| >= 2 && s[0] == '\r' && s[1] == '\n' then [""] + MarkdownLines(s[2..])
    else if s[0] == '\n' || s[0] == '\r' then [""] + MarkdownLines(s[1..])
    else
      var rest := MarkdownLines(s[1..]);
      [[s[0]] + rest[0]] + rest[1..]
  }

  predicate NoLineEnding(s: string) {
    '\n' !in s && '\r' !in s
  }

  /** A line feed follows every carriage return. */
  predicate NoLoneReturn(s: string) {
    forall i | 0 <= i < |s| && s[i] == '\r' :: i + 1 < |s| && s[i + 1] == '\n'
  }

  /** How many characters the first step of either splitting takes. */
  function StepOf(s: string): (n: nat)
    requires s != ""
    ensures 1 <= n <= |s|
  {
    if |s| >= 2 && s[0] == '\r' && s[1] == '\n' then 2 else 1
  }

  lemma ReturnsFrom(s: string, n: nat)
    requires s != "" && n == StepOf(s)
    ensures NoLoneReturn(s) <==> (s[0] == '\r' ==> n == 2) && NoLoneReturn(s[n..])
  {
    assert forall i | 0 <= i < |s| - n :: s[n..][i] == s[n + i];
    if (s[0] == '\r' ==> n == 2) && NoLoneReturn(s[n..]) {
      forall i | n <= i < |s| && s[i] == '\r'
        ensures i + 1 < |s| && s[i + 1] == '\n'
      {
        assert s[i] == s[n..][i - n];
      }
    }
  }

  ghost predicate NoneEnds(lines: seq<string>) {
    forall line | line in lines :: NoLineEnding(line)
  }

  lemma LongerFirstLine(c: char, rest: seq<string>)
    requires rest != []
    ensures NoneEnds([[c] + rest[0]] + rest[1..]) <==> c != '\n' && c != '\r' && NoneEnds(rest)
  {
    var lines := [[c] + rest[0]] + rest[1..];
    assert NoLineEnding([c] + rest[0]) <==> c != '\n' && c != '\r' && NoLineEnding(rest[0]);
    if NoneEnds(lines) {
      assert lines[0] in lines;
      forall i | 0 <= i < |rest|
        ensures NoLineEnding(rest[i])
      {
        assert i > 0 ==> rest[i] == lines[i] && lines[i] in lines;
      }
    }
    if NoneEnds(rest) && c != '\n' && c != '\r' {
      assert rest[0] in rest;
      forall i | 0 <= i < |lines|
        ensures NoLineEnding(lines[i])
      {
        assert i > 0 ==> lines[i] == rest[i] && rest[i] in rest;
      }
    }
  }

  lemma SplitReturns(s: string, n: nat)
    requires s != "" && n == StepOf(s)
    ensures NoneEnds(Split(s)) <==> (s[0] == '\r' ==> n == 2) && NoneEnds(Split(s[n..]))
  {
    var rest := Split(s[n..]);
    if s[0] == '\n' || n == 2 {
      assert Split(s) == [""] + rest;
      assert forall line :: line in Split(s) <==> line == "" || line in rest;
    } else {
      LongerFirstLine(s[0], rest);
    }
  }

  /** Both see the same lines in a file exactly if it holds no lone carriage return, and then no line
      that the script sees holds a line ending. */
  lemma {:induction false} SplitsAgreeIff(s: string)
    ensures Split(s) == MarkdownLines(s) <==> NoLoneReturn(s)
    ensures NoneEnds(Split(s)) <==> NoLoneReturn(s)
  {
    if s != "" {
      var n := StepOf(s);
      SplitsAgreeIff(s[n..]);
      ReturnsFrom(s, n);
      SplitReturns(s, n);
      if Split(s) == MarkdownLines(s) {
        assert NoneEnds(MarkdownLines(s));
      } else {
        SplitsDiffer(s, n);
      }
    } else {
      assert NoneEnds([""]);
    }
  }

  lemma SplitsDiffer(s: string, n: nat)
    requires s != "" && n == StepOf(s) && Split(s) != MarkdownLines(s)
    ensures (s[0] == '\r' && n == 1) || Split(s[n..]) != MarkdownLines(s[n..])
  {
  }

  /** Whether a line opens a fence by section 4.5 of CommonMark 0.31.2: the info string of a backtick
      fence holds no backtick. */
  predicate CommonMarkOpens(line: string)
    requires NoLineEnding(line)
  {
    var f := FenceShape(line);
    f.Some? && (f.value.0.marker == '`' ==> '`' !in f.value.1)
  }

  /** A backtick fence whose info string holds a backtick. */
  predicate BacktickInInfo(line: string) {
    var f := FenceShape(line);
    f.Some? && f.value.0.marker == '`' && '`' in f.value.1 && OneLine(f.value.1)
  }

  /** A fence whose info string holds a line or paragraph separator, which `.` does not match. */
  predicate SeparatorInInfo(line: string) {
    var f := FenceShape(line);
    && f.Some? && !OneLine(f.value.1)
    && (f.value.0.marker == '`' ==> '`' !in f.value.1)
  }

  /** The script and CommonMark agree on whether a line opens a fence, except that the script also lets
      a backtick fence carry a backtick and does not let any fence carry a separator. */
  lemma FenceTestsAgreeIff(line: string)
    requires NoLineEnding(line)
    ensures (OpeningFence(line).Some? <==> CommonMarkOpens(line)) <==> !BacktickInInfo(line) && !SeparatorInInfo(line)
    ensures OpeningFence(line).Some? && !CommonMarkOpens(line) <==> BacktickInInfo(line)
    ensures OpeningFence(line).Some? ==> FenceShape(line).Some? && OpeningFence(line).value == FenceShape(line).value.0
  {
  }

  lemma ShapeOf(marks: string, info: string)
    requires (marks == "```" || marks == "~~~") && info != "" && info[0] != marks[0]
    ensures FenceShape(marks + info) == Some((Fence(marks[0], 3), info))
  {
    var line := marks + info;
    RunIs(line, ' ', "", line);
    RunIs(line, marks[0], marks, info);
    assert line[3..] == info;
  }

  /** A line of the script that holds a lone carriage return is no fence and no heading to it, whatever
      the lines are that CommonMark sees there. */
  lemma LoneReturnHides(line: string)
    requires '\r' in line
    ensures OpeningFence(line).None? && ClosingFence(line).None? && HeadingBody(line).None?
  {
    var k :| 0 <= k < |line| && line[k] == '\r';
    if Unindented(line).Some? {
      var u, m := Unindented(line).value, k - RunOf(line, ' ');
      assert u[m] == '\r';
      ReturnStays(u, MarkerOf(u), m);
      ReturnStays(u, '#', m);
    }
  }

  lemma ReturnStays(u: string, c: char, m: nat)
    requires m < |u| && u[m] == '\r' && c != '\r'
    ensures var rest := u[RunOf(u, c)..]; !OneLine(rest) && !AllBlank(rest)
  {
    assert u[RunOf(u, c)..][m - RunOf(u, c)] == '\r';
  }

  lemma {:induction false} OneScriptLine(s: string)
    requires '\n' !in s
    ensures Split(s) == [s]
  {
    if s != "" {
      OneScriptLine(s[1..]);
      assert s == [s[0]] + s[1..];
    }
  }

  lemma {:induction false} OneMarkdownLine(s: string)
    requires NoLineEnding(s)
    ensures MarkdownLines(s) == [s]
  {
    if s != "" {
      OneMarkdownLine(s[1..]);
      assert s == [s[0]] + s[1..];
    }
  }

  /** A lone carriage return makes two lines of one. */
  lemma {:induction false} TwoMarkdownLines(a: string, b: string)
    requires NoLineEnding(a) && NoLineEnding(b)
    ensures MarkdownLines(a + "\r" + b) == [a, b]
  {
    var s := a + "\r" + b;
    if a == "" {
      OneMarkdownLine(b);
      assert s[1..] == b;
    } else {
      TwoMarkdownLines(a[1..], b);
      assert s[0] == a[0] && s[1..] == a[1..] + "\r" + b;
      assert a == [a[0]] + a[1..];
    }
  }

  /** In general, a carriage return between a and b leaves one line to the script, which is no fence,
      and two to CommonMark. */
  lemma CutLine(a: string, b: string)
    requires NoLineEnding(a) && NoLineEnding(b)
    ensures Split(a + "\r" + b) == [a + "\r" + b] && OpeningFence(a + "\r" + b) == None
    ensures MarkdownLines(a + "\r" + b) == [a, b]
  {
    var line := a + "\r" + b;
    assert line[|a|] == '\r';
    LoneReturnHides(line);
    OneScriptLine(line);
    TwoMarkdownLines(a, b);
  }

  lemma BareFence(marks: string)
    requires marks == "```"
    ensures CommonMarkOpens(marks)
  {
    RunIs(marks, ' ', "", marks);
    RunIs(marks, '`', marks, "");
  }

  /** All three differences occur: what is in the info string, and where lines end. */
  lemma FenceTestsDiffer()
    ensures OpeningFence("```" + "a`b") == Some(Fence('`', 3)) && !CommonMarkOpens("```" + "a`b")
    ensures OpeningFence("~~~" + "a\U{2028}") == None && CommonMarkOpens("~~~" + "a\U{2028}")
    ensures Split("```" + "\r" + "foo") == ["```" + "\r" + "foo"] && OpeningFence("```" + "\r" + "foo") == None
    ensures MarkdownLines("```" + "\r" + "foo") == ["```", "foo"] && CommonMarkOpens("```")
  {
    var held, separated := "a`b", "a\U{2028}";
    ShapeOf("```", held);
    assert held[1] == '`' && OneLine(held);
    ShapeOf("~~~", separated);
    assert Terminator(separated[1]);
    FenceTestsAgreeIff("```" + held);
    FenceTestsAgreeIff("~~~" + separated);
    CutLine("```", "foo");
    BareFence("```");
  }

  /* ---- explicit ids ---- */

  /** [ \t]*(?:#+[ \t]*)? to the end of the line. */
  predicate ClosingSequence(s: string) {
    var n := BlankRun(s);
    AllBlank(s[n + RunOf(s[n..], '#')..])
  }

  predicate IdText(s: string) {
    s != "" && forall i | 0 <= i < |s| :: IdChar.Has(s[i])
  }

  /** The id's match begins at position k and its closing brace is at position j. */
  predicate IdAt(body: string, k: nat, j: nat) {
    && k + 2 <= j < |body| && body[k] == '{' && body[k + 1] == '#' && body[j] == '}'
    && (k == 0 || Blank(body[k - 1]))
    && IdText(body[k + 2..j]) && ClosingSequence(body[j + 1..])
  }

  /** The position after the last c in s; 0 if there is none. */
  function AfterLast(s: string, c: char): (n: nat)
    ensures n <= |s| && (n > 0 ==> s[n - 1] == c) && forall i | n <= i < |s| :: s[i] != c
  {
    if s == "" then 0 else if s[|s| - 1] == c then |s| else AfterLast(s[..|s| - 1], c)
  }

  /** The captured id of /(?:^|[ \t])\{#([^{}\s]+)\}[ \t]*(?:#+[ \t]*)?$/. */
  function ExplicitId(body: string): Option<string> {
    IdFrom(body, AfterLast(body, '{'), AfterLast(body, '}'))
  }

  function IdFrom(body: string, k: nat, j: nat): Option<string> {
    if k >= 1 && j >= 1 then IdBetween(body, k - 1, j - 1) else None
  }

  function IdBetween(body: string, k: nat, j: nat): Option<string> {
    if IdAt(body, k, j) then Some(body[k + 2..j]) else None
  }

  lemma NoBraces(s: string, c: char)
    requires ClosingSequence(s) && (c == '{' || c == '}')
    ensures c !in s
  {
    var n := BlankRun(s);
    var m := RunOf(s[n..], '#');
    forall i | 0 <= i < |s|
      ensures s[i] != c
    {
      if i < n {
        assert s[i] == s[..n][i];
      } else if i < n + m {
        assert s[i] == s[n..][i - n];
      } else {
        assert s[i] == s[n + m..][i - n - m];
      }
    }
  }

  lemma LastIs(s: string, c: char, p: nat, after: string)
    requires p < |s| && s[p] == c && after == s[p + 1..] && c !in after
    ensures AfterLast(s, c) == p + 1
  {
    assert forall i | p < i < |s| :: s[i] == after[i - p - 1];
  }

  lemma NoBracesInside(body: string, k: nat, j: nat)
    requires IdAt(body, k, j)
    ensures '{' !in body[k + 1..]
  {
    NoBraces(body[j + 1..], '{');
    assert body[k + 1..] == "#" + body[k + 2..j] + "}" + body[j + 1..];
  }

  lemma IdPlaces(body: string, k: nat, j: nat)
    requires IdAt(body, k, j)
    ensures AfterLast(body, '}') == j + 1 && AfterLast(body, '{') == k + 1
  {
    NoBraces(body[j + 1..], '}');
    NoBracesInside(body, k, j);
    LastIs(body, '}', j, body[j + 1..]);
    LastIs(body, '{', k, body[k + 1..]);
  }

  /** The expression matches in at most one place, so the id there is the only one. */
  lemma IdUnique(body: string, k: nat, j: nat, id: string)
    requires IdAt(body, k, j) && id == body[k + 2..j]
    ensures ExplicitId(body) == Some(id)
  {
    IdPlaces(body, k, j);
    ReadBetween(body, k, j);
  }

  lemma ReadBetween(body: string, k: nat, j: nat)
    requires AfterLast(body, '}') == j + 1 && AfterLast(body, '{') == k + 1
    ensures ExplicitId(body) == IdBetween(body, k, j)
  {
    assert ExplicitId(body) == IdFrom(body, k + 1, j + 1);
  }

  /** [ \t]*(?:#+[ \t]*)? */
  const HASHES_AND_BLANKS := Cat(Chars(HashSign, 1, Unbounded), Chars(TabOrSpace, 0, Unbounded))
  const CLOSING_RE := Cat(Chars(TabOrSpace, 0, Unbounded), Alt(Word(""), HASHES_AND_BLANKS))
  const ID_TEXT := Chars(IdChar, 1, Unbounded)
  /** \{#([^{}\s]+)\}[ \t]*(?:#+[ \t]*)? to the end of the line. */
  const ID_RE := Cat(Word("{#"), Cat(ID_TEXT, Cat(Word("}"), CLOSING_RE)))

  lemma HashesAndBlanks(s: string)
    ensures Matches(HASHES_AND_BLANKS, s) <==> RunOf(s, '#') >= 1 && AllBlank(s[RunOf(s, '#')..])
  {
    if Matches(HASHES_AND_BLANKS, s) {
      var h, b := Parts(Chars(HashSign, 1, Unbounded), Chars(TabOrSpace, 0, Unbounded), s);
      RunIs(s, '#', h, b);
      assert s[|h|..] == b;
    }
    if RunOf(s, '#') >= 1 && AllBlank(s[RunOf(s, '#')..]) {
      HashesJoin(s, RunOf(s, '#'));
    }
  }

  lemma HashesJoin(s: string, m: nat)
    requires m == RunOf(s, '#') && m >= 1 && AllBlank(s[m..])
    ensures Matches(HASHES_AND_BLANKS, s)
  {
    Joined(Chars(HashSign, 1, Unbounded), Chars(TabOrSpace, 0, Unbounded), s[..m], s[m..]);
    assert s == s[..m] + s[m..];
  }

  lemma ClosingSequenceMatches(s: string)
    ensures ClosingSequence(s) <==> Matches(CLOSING_RE, s)
  {
    if Matches(CLOSING_RE, s) {
      var x, y := Parts(Chars(TabOrSpace, 0, Unbounded), Alt(Word(""), HASHES_AND_BLANKS), s);
      ClosingParts(s, x, y);
    }
    if ClosingSequence(s) {
      ClosingJoins(s, BlankRun(s));
    }
  }

  lemma ClosingJoins(s: string, n: nat)
    requires ClosingSequence(s) && n == BlankRun(s)
    ensures Matches(CLOSING_RE, s)
  {
    var y := s[n..];
    ClosingTail(s, n, y);
    Joined(Chars(TabOrSpace, 0, Unbounded), Alt(Word(""), HASHES_AND_BLANKS), s[..n], y);
    assert s == s[..n] + y;
  }

  lemma ClosingTail(s: string, n: nat, y: string)
    requires ClosingSequence(s) && n == BlankRun(s) && y == s[n..]
    ensures Matches(Alt(Word(""), HASHES_AND_BLANKS), y)
  {
    var m := RunOf(y, '#');
    assert y[m..] == s[n + m..];
    if m >= 1 {
      HashesAndBlanks(y);
    } else {
      assert y == y[m..];
      assert Matches(Word(""), y);
    }
  }

  lemma ClosingParts(s: string, x: string, y: string)
    requires s == x + y && AllBlank(x) && Matches(Alt(Word(""), HASHES_AND_BLANKS), y)
    ensures ClosingSequence(s)
  {
    assert y == "" || Matches(HASHES_AND_BLANKS, y);
    HashesAndBlanks(y);
    ClosingSplits(s, x, y, RunOf(y, '#'));
  }

  lemma ClosingSplits(s: string, x: string, y: string, m: nat)
    requires s == x + y && AllBlank(x) && m == RunOf(y, '#') && AllBlank(y[m..]) && (y == "" || m >= 1)
    ensures ClosingSequence(s)
  {
    BlankRunIs(s, x, y);
    SuffixOfSuffix(s, x, y, m);
  }

  lemma SuffixOfSuffix(s: string, x: string, y: string, m: nat)
    requires s == x + y && m <= |y|
    ensures s[|x|..] == y && s[|x| + m..] == y[m..]
  {
  }

  /** A way to match the id expression from position k on, with what its group captures. */
  ghost predicate IdSplit(body: string, k: nat, id: string, tail: string) {
    IdPieces(body, k, id, tail) && Matches(ID_TEXT, id) && Matches(CLOSING_RE, tail)
  }

  predicate IdPieces(body: string, k: nat, id: string, tail: string) {
    k <= |body| && (k == 0 || Blank(body[k - 1])) && body[k..] == "{#" + (id + ("}" + tail))
  }

  lemma IdShape(id: string, tail: string)
    ensures Matches(ID_TEXT, id) && Matches(CLOSING_RE, tail) <==> IdText(id) && ClosingSequence(tail)
  {
    ClosingSequenceMatches(tail);
  }

  lemma Pieces(s: string, id: string, tail: string)
    requires s == "{#" + (id + ("}" + tail))
    ensures |s| == 3 + |id| + |tail| && s[0] == '{' && s[1] == '#' && s[2 + |id|] == '}'
    ensures s[2..2 + |id|] == id && s[3 + |id|..] == tail
  {
  }

  lemma PiecesAt(body: string, k: nat, id: string, tail: string, j: nat)
    requires IdPieces(body, k, id, tail) && IdText(id) && ClosingSequence(tail) && j == k + 2 + |id|
    ensures IdAt(body, k, j) && id == body[k + 2..j]
  {
    var s := body[k..];
    Pieces(s, id, tail);
    assert body[k] == s[0] && body[k + 1] == s[1] && body[j] == s[2 + |id|];
    assert body[k + 2..j] == s[2..2 + |id|];
    assert body[j + 1..] == s[3 + |id|..];
  }

  lemma PiecesRead(body: string, k: nat, id: string, tail: string)
    requires IdPieces(body, k, id, tail) && IdText(id) && ClosingSequence(tail)
    ensures ExplicitId(body) == Some(id)
  {
    var j := k + 2 + |id|;
    PiecesAt(body, k, id, tail, j);
    IdUnique(body, k, j, id);
  }

  lemma CutInPieces(body: string, k: nat, j: nat)
    requires k + 2 <= j < |body| && body[k] == '{' && body[k + 1] == '#' && body[j] == '}'
    ensures body[k..] == "{#" + (body[k + 2..j] + ("}" + body[j + 1..]))
  {
  }

  lemma IdAtPieces(body: string, k: nat, j: nat, id: string, tail: string)
    requires IdAt(body, k, j) && id == body[k + 2..j] && tail == body[j + 1..]
    ensures IdPieces(body, k, id, tail) && IdText(id) && ClosingSequence(tail)
  {
    CutInPieces(body, k, j);
  }

  lemma PiecesFound(body: string) returns (k: nat, tail: string)
    requires ExplicitId(body).Some?
    ensures var id := ExplicitId(body).value; IdPieces(body, k, id, tail) && IdText(id) && ClosingSequence(tail)
  {
    var j := AfterLast(body, '}') - 1;
    k := AfterLast(body, '{') - 1;
    tail := body[j + 1..];
    IdAtPieces(body, k, j, ExplicitId(body).value, tail);
  }

  lemma ComputedSplit(body: string) returns (k: nat, tail: string)
    requires ExplicitId(body).Some?
    ensures IdSplit(body, k, ExplicitId(body).value, tail)
  {
    k, tail := PiecesFound(body);
    IdShape(ExplicitId(body).value, tail);
  }

  lemma SplitIsComputed(body: string, k: nat, id: string, tail: string)
    requires IdSplit(body, k, id, tail)
    ensures ExplicitId(body) == Some(id)
  {
    IdShape(id, tail);
    PiecesRead(body, k, id, tail);
  }

  /** The explicit id is what the expression's group captures, wherever it matches, */
  lemma IdCaptured(body: string, id: string)
    ensures ExplicitId(body) == Some(id) <==> exists k: nat, tail :: IdSplit(body, k, id, tail)
  {
    if ExplicitId(body) == Some(id) {
      var k, tail := ComputedSplit(body);
    }
    if k: nat, tail :| IdSplit(body, k, id, tail) {
      SplitIsComputed(body, k, id, tail);
    }
  }

  /** The id expression matches from k to the end: k is the start or stands behind a blank. */
  ghost predicate IdReAt(body: string, k: nat) {
    k <= |body| && (k == 0 || Blank(body[k - 1])) && Matches(ID_RE, body[k..])
  }

  /** and there is one exactly when the expression matches somewhere. */
  lemma IdMatches(body: string)
    ensures ExplicitId(body).Some? <==> exists k: nat :: IdReAt(body, k)
  {
    if ExplicitId(body).Some? {
      var k, tail := ComputedSplit(body);
      IdJoins(ExplicitId(body).value, tail);
      assert IdReAt(body, k);
    }
    if k: nat :| IdReAt(body, k) {
      var id, tail := IdParts(body[k..]);
      SplitIsComputed(body, k, id, tail);
    }
  }

  lemma IdJoins(id: string, tail: string)
    requires Matches(ID_TEXT, id) && Matches(CLOSING_RE, tail)
    ensures Matches(ID_RE, "{#" + (id + ("}" + tail)))
  {
    Joined(Word("}"), CLOSING_RE, "}", tail);
    Joined(ID_TEXT, Cat(Word("}"), CLOSING_RE), id, "}" + tail);
    Joined(Word("{#"), Cat(ID_TEXT, Cat(Word("}"), CLOSING_RE)), "{#", id + ("}" + tail));
  }

  lemma IdParts(s: string) returns (id: string, tail: string)
    requires Matches(ID_RE, s)
    ensures s == "{#" + (id + ("}" + tail)) && Matches(ID_TEXT, id) && Matches(CLOSING_RE, tail)
  {
    var a, s1, c, s2: string;
    a, s1 := Parts(Word("{#"), Cat(ID_TEXT, Cat(Word("}"), CLOSING_RE)), s);
    id, s2 := Parts(ID_TEXT, Cat(Word("}"), CLOSING_RE), s1);
    c, tail := Parts(Word("}"), CLOSING_RE, s2);
  }
}
