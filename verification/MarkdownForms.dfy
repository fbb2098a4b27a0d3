/** What the heading scanner looks for, in terms of characters and positions alone: front matter, fences,
    headings and ids without a regular expression. */
module MarkdownForms {
  import opened Api
  import opened HeadingLines
  import opened Headings
  import Regex

  /* ---- characters ---- */

  predicate IsBlank(c: char) {
    c == ' ' || c == '\t'
  }

  /** Where a line ends in JavaScript. */
  predicate EndsLine(c: char) {
    c in {'\n', '\r', '\U{2028}', '\U{2029}'}
  }

  /** White space in JavaScript, character by character. */
  predicate IsWhite(c: char) {
    c in {' ', '\t', '\n', '\r', '\U{0B}', '\U{0C}', '\U{A0}', '\U{1680}',
          '\U{2000}', '\U{2001}', '\U{2002}', '\U{2003}', '\U{2004}', '\U{2005}', '\U{2006}', '\U{2007}', '\U{2008}',
          '\U{2009}', '\U{200A}', '\U{2028}', '\U{2029}', '\U{202F}', '\U{205F}', '\U{3000}', '\U{FEFF}'}
  }

  predicate AllAre(s: string, c: char) {
    forall i | 0 <= i < |s| :: s[i] == c
  }

  predicate Blanks(s: string) {
    forall i | 0 <= i < |s| :: IsBlank(s[i])
  }

  predicate White(s: string) {
    forall i | 0 <= i < |s| :: IsWhite(s[i])
  }

  predicate WithinLine(s: string) {
    forall i | 0 <= i < |s| :: !EndsLine(s[i])
  }

  /* ---- shapes ---- */

  /** Up to three spaces, a run of at least least markers that is as long as it can be, and the rest. */
  predicate FenceParts(line: string, indent: string, marks: string, rest: string, least: nat, f: Fence) {
    && line == indent + (marks + rest)
    && |indent| <= 3 && AllAre(indent, ' ')
    && |marks| == f.length && f.length >= least && AllAre(marks, f.marker) && (f.marker == '`' || f.marker == '~')
    && (rest != "" ==> rest[0] != f.marker)
  }

  ghost predicate Opens(line: string, f: Fence) {
    exists indent, marks, rest :: FenceParts(line, indent, marks, rest, 3, f) && WithinLine(rest)
  }

  ghost predicate CouldClose(line: string, f: Fence) {
    exists indent, marks, rest :: FenceParts(line, indent, marks, rest, 1, f) && Blanks(rest)
  }

  /** Up to three spaces, one to six hashes, blanks as far as they go, and the body; no body without blanks. */
  predicate HeadingParts(line: string, indent: string, hashes: string, blanks: string, body: string) {
    && line == indent + (hashes + (blanks + body))
    && |indent| <= 3 && AllAre(indent, ' ')
    && 1 <= |hashes| <= 6 && AllAre(hashes, '#')
    && Blanks(blanks) && (blanks == "" ==> body == "")
    && (body != "" ==> !IsBlank(body[0])) && WithinLine(body)
  }

  ghost predicate HasBody(line: string, body: string) {
    exists indent, hashes, blanks :: HeadingParts(line, indent, hashes, blanks, body)
  }

  /** Text, a blank unless there is no text, the id in braces, and at most blanks, hashes and blanks. */
  predicate IdParts(body: string, before: string, id: string, b1: string, hashes: string, b2: string) {
    && body == before + ("{#" + (id + ("}" + (b1 + (hashes + b2)))))
    && (before != "" ==> IsBlank(before[|before| - 1]))
    && id != "" && (forall i | 0 <= i < |id| :: id[i] != '{' && id[i] != '}' && !IsWhite(id[i]))
    && Blanks(b1) && AllAre(hashes, '#') && Blanks(b2)
  }

  ghost predicate HasId(body: string, id: string) {
    exists before, b1, hashes, b2 :: IdParts(body, before, id, b1, hashes, b2)
  }

  /* ---- the scanner's characters are these ---- */

  lemma Characters(c: char)
    ensures Regex.Blank(c) <==> IsBlank(c)
    ensures Regex.Terminator(c) <==> EndsLine(c)
    ensures Regex.Space(c) <==> IsWhite(c)
  {
  }

  lemma Runs(s: string)
    ensures AllBlank(s) <==> Blanks(s)
    ensures OneLine(s) <==> WithinLine(s)
  {
    forall i | 0 <= i < |s|
      ensures Regex.Blank(s[i]) <==> IsBlank(s[i])
      ensures Regex.Terminator(s[i]) <==> EndsLine(s[i])
    {
      Characters(s[i]);
    }
  }

  /* ---- fences ---- */

  lemma PartsOfFence(line: string, indent: string, marks: string, rest: string, least: nat, f: Fence)
    requires FenceParts(line, indent, marks, rest, least, f) && least >= 1
    ensures Unindented(line) == Some(marks + rest) && MarkerOf(marks + rest) == f.marker
    ensures RunOf(marks + rest, f.marker) == f.length && (marks + rest)[f.length..] == rest
  {
    var u := marks + rest;
    assert u[0] == marks[0] == f.marker;
    RunIs(line, ' ', indent, u);
    assert line[|indent|..] == u;
    RunIs(u, f.marker, marks, rest);
  }

  lemma RunParts(s: string, c: char) returns (run: string, rest: string)
    ensures s == run + rest && |run| == RunOf(s, c) && rest == s[RunOf(s, c)..]
    ensures AllAre(run, c) && (rest != "" ==> rest[0] != c)
  {
    run, rest := s[..RunOf(s, c)], s[RunOf(s, c)..];
  }

  lemma BlankParts(s: string) returns (run: string, rest: string)
    ensures s == run + rest && Blanks(run) && rest == s[BlankRun(s)..]
    ensures rest != "" ==> !IsBlank(rest[0])
  {
    run, rest := s[..BlankRun(s)], s[BlankRun(s)..];
    Runs(run);
    if rest != "" {
      Characters(rest[0]);
    }
  }

  lemma FenceHasParts(line: string, least: nat, u: string, c: char)
      returns (indent: string, marks: string, rest: string, f: Fence)
    requires Unindented(line) == Some(u) && c == MarkerOf(u) && RunOf(u, c) >= least >= 1
    ensures FenceParts(line, indent, marks, rest, least, f)
    ensures f == Fence(c, RunOf(u, c)) && rest == u[f.length..]
  {
    var after;
    indent, after := RunParts(line, ' ');
    marks, rest := RunParts(u, c);
    f := Fence(c, |marks|);
  }

  /** A line opens fence f exactly if it has that shape, */
  lemma OpeningMeans(line: string, f: Fence)
    ensures OpeningFence(line) == Some(f) <==> Opens(line, f)
  {
    if OpeningFence(line) == Some(f) {
      var u := Unindented(line).value;
      var indent, marks, rest, g := FenceHasParts(line, 3, u, MarkerOf(u));
      Runs(rest);
    }
    if indent, marks, rest :| FenceParts(line, indent, marks, rest, 3, f) && WithinLine(rest) {
      PartsOfFence(line, indent, marks, rest, 3, f);
      Runs(rest);
    }
  }

  lemma ClosingMeans(line: string, f: Fence)
    ensures ClosingFence(line) == Some(f) <==> CouldClose(line, f)
  {
    if ClosingFence(line) == Some(f) {
      var u := Unindented(line).value;
      var indent, marks, rest, g := FenceHasParts(line, 1, u, MarkerOf(u));
      Runs(rest);
    }
    if indent, marks, rest :| FenceParts(line, indent, marks, rest, 1, f) && Blanks(rest) {
      PartsOfFence(line, indent, marks, rest, 1, f);
      Runs(rest);
    }
  }

  /** and closes it if it is a closing line of the same marker, at least as long. */
  lemma ClosesMeans(f: Fence, line: string)
    ensures Closes(f, line) <==> exists n: nat :: n >= f.length && CouldClose(line, Fence(f.marker, n))
  {
    if Closes(f, line) {
      ClosingMeans(line, ClosingFence(line).value);
    }
    if n: nat :| n >= f.length && CouldClose(line, Fence(f.marker, n)) {
      ClosingMeans(line, Fence(f.marker, n));
    }
  }

  /* ---- headings ---- */

  lemma PartsOfHeading(line: string, indent: string, hashes: string, blanks: string, body: string)
    requires HeadingParts(line, indent, hashes, blanks, body)
    ensures HeadingBody(line) == Some(body)
  {
    var rest := blanks + body;
    var u := hashes + rest;
    assert u[0] == '#';
    RunIs(line, ' ', indent, u);
    assert line[|indent|..] == u;
    assert rest != "" ==> IsBlank(rest[0]);
    RunIs(u, '#', hashes, rest);
    assert u[|hashes|..] == rest;
    BlanksAndBody(rest, blanks, body);
  }

  lemma BlanksAndBody(rest: string, blanks: string, body: string)
    requires rest == blanks + body && Blanks(blanks) && (body != "" ==> !IsBlank(body[0])) && WithinLine(body)
    ensures OneLine(rest) && rest[BlankRun(rest)..] == body
  {
    Runs(blanks);
    Runs(body);
    Runs(rest);
    assert forall i | 0 <= i < |blanks| :: !EndsLine(blanks[i]);
    BlankRunIs(rest, blanks, body);
  }

  lemma BodyWithin(rest: string, blanks: string, body: string)
    requires rest == blanks + body && OneLine(rest)
    ensures WithinLine(body)
  {
    Runs(rest);
    assert forall i | 0 <= i < |body| :: body[i] == rest[|blanks| + i];
  }

  lemma HeadingHasParts(line: string)
    requires HeadingBody(line).Some?
    ensures HasBody(line, HeadingBody(line).value)
  {
    var u := Unindented(line).value;
    var indent, after := RunParts(line, ' ');
    var hashes, rest := RunParts(u, '#');
    var blanks, body := BlankParts(rest);
    BodyWithin(rest, blanks, body);
    if rest != "" {
      Characters(rest[0]);
    }
    assert HeadingParts(line, indent, hashes, blanks, body);
  }

  /** A line is a heading with this body exactly if it has that shape. */
  lemma HeadingMeans(line: string, body: string)
    ensures HeadingBody(line) == Some(body) <==> HasBody(line, body)
  {
    if HeadingBody(line).Some? {
      HeadingHasParts(line);
    }
    if indent, hashes, blanks :| HeadingParts(line, indent, hashes, blanks, body) {
      PartsOfHeading(line, indent, hashes, blanks, body);
    }
  }

  /* ---- front matter ---- */

  /** The line that ends front matter: three hyphens or three dots, then blanks. */
  lemma FrontMatterEndMeans(line: string)
    ensures EndsFrontMatter(line) <==> exists blanks :: Blanks(blanks) && (line == "---" + blanks || line == "..." + blanks)
  {
    if EndsFrontMatter(line) {
      var blanks := line[3..];
      Runs(blanks);
      assert line == line[..3] + blanks;
    }
    if blanks :| Blanks(blanks) && (line == "---" + blanks || line == "..." + blanks) {
      Runs(blanks);
      assert line[..3] == "---" || line[..3] == "...";
      assert line[3..] == blanks;
    }
  }

  lemma {:induction false} TrimStartIs(s: string, x: string, rest: string)
    requires s == x + rest && White(x) && (rest != "" ==> !IsWhite(rest[0]))
    ensures TrimStart(s) == rest
  {
    if x == "" {
      if rest != "" {
        Characters(rest[0]);
      }
      assert s == rest;
    } else {
      Characters(x[0]);
      assert s[1..] == x[1..] + rest;
      TrimStartIs(s[1..], x[1..], rest);
    }
  }

  lemma {:induction false} TrimEndIs(s: string, rest: string, x: string)
    requires s == rest + x && White(x) && (rest != "" ==> !IsWhite(rest[|rest| - 1]))
    ensures TrimEnd(s) == rest
  {
    if x == "" {
      if rest != "" {
        Characters(rest[|rest| - 1]);
      }
      assert s == rest;
    } else {
      Characters(x[|x| - 1]);
      assert s[..|s| - 1] == rest + x[..|x| - 1];
      TrimEndIs(s[..|s| - 1], rest, x[..|x| - 1]);
    }
  }

  lemma {:induction false} TrimStartTakes(s: string) returns (x: string)
    ensures s == x + TrimStart(s) && White(x)
  {
    if s == "" || !Regex.Space(s[0]) {
      x := "";
    } else {
      Characters(s[0]);
      var x' := TrimStartTakes(s[1..]);
      x := [s[0]] + x';
      assert s == [s[0]] + s[1..];
    }
  }

  lemma {:induction false} TrimEndTakes(s: string) returns (x: string)
    ensures s == TrimEnd(s) + x && White(x)
  {
    if s == "" || !Regex.Space(s[|s| - 1]) {
      x := "";
    } else {
      Characters(s[|s| - 1]);
      var x' := TrimEndTakes(s[..|s| - 1]);
      x := x' + [s[|s| - 1]];
      assert s == s[..|s| - 1] + [s[|s| - 1]];
    }
  }

  /** Front matter begins exactly where the first line is three hyphens, with white space around them. */
  lemma FrontMatterBegins(lines: seq<string>)
    ensures HasFrontMatter(lines)
            <==> lines != [] && exists x, y :: White(x) && White(y) && lines[0] == x + ("---" + y)
  {
    if HasFrontMatter(lines) {
      var x := TrimStartTakes(lines[0]);
      var y := TrimEndTakes(TrimStart(lines[0]));
    }
    if lines != [] {
      if x, y :| White(x) && White(y) && lines[0] == x + ("---" + y) {
        TrimStartIs(lines[0], x, "---" + y);
        TrimEndIs("---" + y, "---", y);
      }
    }
  }

  lemma {:induction false} EndFound(lines: seq<string>, n: nat, i: nat)
    requires n <= |lines| && i < |lines|
    ensures FrontMatterEnd(lines, n) <= i <==> exists e :: n <= e < i && EndsFrontMatter(lines[e])
    decreases |lines| - n
  {
    if n < |lines| && !EndsFrontMatter(lines[n]) {
      EndFound(lines, n + 1, i);
    }
  }

  /** A line is past the front matter if there is none or an earlier line, other than the first, ends it. */
  lemma PastFrontMatter(lines: seq<string>, i: nat)
    requires i < |lines|
    ensures BodyStart(lines) <= i <==> !HasFrontMatter(lines) || exists e :: 1 <= e < i && EndsFrontMatter(lines[e])
  {
    if HasFrontMatter(lines) {
      EndFound(lines, 1, i);
    }
  }

  /* ---- ids ---- */

  lemma PartsOfId(body: string, before: string, id: string, b1: string, hashes: string, b2: string)
    requires IdParts(body, before, id, b1, hashes, b2)
    ensures ExplicitId(body) == Some(id)
  {
    var tail := b1 + (hashes + b2);
    TailCloses(b1, hashes, b2, tail);
    forall i | 0 <= i < |id|
      ensures Regex.Class.IdChar.Has(id[i])
    {
      Characters(id[i]);
    }
    assert body[|before|..] == "{#" + (id + ("}" + tail));
    if before != "" {
      Characters(before[|before| - 1]);
    }
    PiecesRead(body, |before|, id, tail);
  }

  lemma TailCloses(b1: string, hashes: string, b2: string, tail: string)
    requires Blanks(b1) && AllAre(hashes, '#') && Blanks(b2) && tail == b1 + (hashes + b2)
    ensures ClosingSequence(tail)
  {
    Runs(b1);
    Runs(b2);
    if hashes == "" {
      assert tail == b1 + b2;
      Runs(tail);
      BlankRunIs(tail, tail, "");
      assert tail[|tail|..] == "";
    } else {
      BlankRunIs(tail, b1, hashes + b2);
      assert tail[|b1|..] == hashes + b2;
      RunIs(hashes + b2, '#', hashes, b2);
      assert tail[|b1| + |hashes|..] == b2;
    }
  }

  lemma TailHasParts(tail: string) returns (b1: string, hashes: string, b2: string)
    requires ClosingSequence(tail)
    ensures tail == b1 + (hashes + b2) && Blanks(b1) && AllAre(hashes, '#') && Blanks(b2)
  {
    var after;
    b1, after := BlankParts(tail);
    hashes, b2 := RunParts(after, '#');
    Runs(b2);
  }

  lemma IdIsText(id: string)
    ensures IdText(id) <==> id != "" && forall i | 0 <= i < |id| :: id[i] != '{' && id[i] != '}' && !IsWhite(id[i])
  {
    forall i | 0 <= i < |id|
      ensures Regex.Class.IdChar.Has(id[i]) <==> id[i] != '{' && id[i] != '}' && !IsWhite(id[i])
    {
      Characters(id[i]);
    }
  }

  lemma IdHasParts(body: string, k: nat, id: string, tail: string)
    requires IdPieces(body, k, id, tail) && IdText(id) && ClosingSequence(tail)
    ensures HasId(body, id)
  {
    var b1, hashes, b2 := TailHasParts(tail);
    IdIsText(id);
    IdAssembled(body, k, id, tail, b1, hashes, b2);
  }

  lemma IdAssembled(body: string, k: nat, id: string, tail: string, b1: string, hashes: string, b2: string)
    requires IdPieces(body, k, id, tail) && tail == b1 + (hashes + b2)
    requires id != "" && forall i | 0 <= i < |id| :: id[i] != '{' && id[i] != '}' && !IsWhite(id[i])
    requires Blanks(b1) && AllAre(hashes, '#') && Blanks(b2)
    ensures IdParts(body, body[..k], id, b1, hashes, b2)
  {
    assert body == body[..k] + body[k..];
    if k > 0 {
      Characters(body[k - 1]);
    }
  }

  /** The explicit id of a heading is the one that its body ends in. */
  lemma IdMeans(body: string, id: string)
    ensures ExplicitId(body) == Some(id) <==> HasId(body, id)
  {
    if ExplicitId(body) == Some(id) {
      var k, tail := PiecesFound(body);
      IdHasParts(body, k, id, tail);
    }
    if before, b1, hashes, b2 :| IdParts(body, before, id, b1, hashes, b2) {
      PartsOfId(body, before, id, b1, hashes, b2);
    }
  }

  /* ---- lines ---- */

  /** A byte order mark in front is dropped, and nothing else. */
  lemma BomDropped(s: string)
    ensures StripBom("\U{FEFF}" + s) == s
    ensures s == "" || s[0] != '\U{FEFF}' ==> StripBom(s) == s
  {
    assert ("\U{FEFF}" + s)[1..] == s;
  }

  /** Lines end at line feeds, */
  lemma {:induction false} LineFeedEnds(a: string, b: string)
    requires '\n' !in a && (a != "" ==> a[|a| - 1] != '\r')
    ensures Split(a + ("\n" + b)) == [a] + Split(b)
  {
    if a == "" {
      assert a + ("\n" + b) == "\n" + b && ("\n" + b)[1..] == b;
    } else {
      LineFeedEnds(a[1..], b);
      FirstCharacter(a, "\n" + b);
      assert a == [a[0]] + a[1..];
    }
  }

  /** and a carriage return in front of one goes with it. */
  lemma {:induction false} ReturnFeedEnds(a: string, b: string)
    requires '\n' !in a
    ensures Split(a + ("\r\n" + b)) == [a] + Split(b)
  {
    if a == "" {
      assert a + ("\r\n" + b) == "\r\n" + b && ("\r\n" + b)[2..] == b;
    } else {
      ReturnFeedEnds(a[1..], b);
      FirstCharacter(a, "\r\n" + b);
      assert a == [a[0]] + a[1..];
    }
  }

  lemma FirstCharacter(a: string, rest: string)
    requires a != "" && '\n' !in a && rest != "" && !(|a| == 1 && a[0] == '\r' && rest[0] == '\n')
    ensures var more := Split(a[1..] + rest); Split(a + rest) == [[a[0]] + more[0]] + more[1..]
  {
    var s := a + rest;
    assert s[0] == a[0] && s[1..] == a[1..] + rest;
    assert |a| > 1 ==> s[1] == a[1];
  }
}
