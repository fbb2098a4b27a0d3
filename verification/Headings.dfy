/** The Markdown heading scanner of docs/fusioninfer/scripts/check-i18n-content.mjs. */
module Headings {
  import opened Api
  import opened HeadingLines

  /* ---- what should be found ---- */

  /** The first line after the front matter; beyond the end if it is never closed. */
  function BodyStart(lines: seq<string>): nat {
    if HasFrontMatter(lines) then FrontMatterEnd(lines, 1) else 0
  }

  /** The line after the first one from n on that ends front matter. */
  function FrontMatterEnd(lines: seq<string>, n: nat): (e: nat)
    requires n <= |lines|
    ensures n < e <= |lines| + 1
    decreases |lines| - n
  {
    if n == |lines| || EndsFrontMatter(lines[n]) then n + 1 else FrontMatterEnd(lines, n + 1)
  }

  /** Line o, past the front matter, could open a fence. */
  predicate MayOpen(lines: seq<string>, o: nat)
    requires o < |lines|
  {
    BodyStart(lines) <= o && OpeningFence(lines[o]).Some?
  }

  /** No line between o and i closes the fence that line o opens. */
  predicate StaysOpen(lines: seq<string>, o: nat, i: nat)
    requires o < i <= |lines| && MayOpen(lines, o)
  {
    forall c | o < c < i :: !Closes(OpeningFence(lines[o]).value, lines[c])
  }

  /** Line i is inside a fence, its closing line included: some earlier line, itself outside all
      fences, opens one that no line between the two closes. */
  ghost predicate InFence(lines: seq<string>, i: nat)
    requires i <= |lines|
    decreases i
  {
    exists o: nat | o < i :: MayOpen(lines, o) && StaysOpen(lines, o, i) && !InFence(lines, o)
  }

  ghost predicate OpenedBy(lines: seq<string>, o: nat, i: nat) {
    o < i <= |lines| && MayOpen(lines, o) && StaysOpen(lines, o, i) && !InFence(lines, o)
  }

  lemma Opener(lines: seq<string>, i: nat) returns (o: nat)
    requires i <= |lines| && InFence(lines, i)
    ensures OpenedBy(lines, o, i)
  {
    o :| o < i && MayOpen(lines, o) && StaysOpen(lines, o, i) && !InFence(lines, o);
  }

  lemma OpenedIsInFence(lines: seq<string>, o: nat, i: nat)
    requires OpenedBy(lines, o, i)
    ensures InFence(lines, i)
  {
  }

  /** A heading-shaped line outside front matter and outside fences. */
  ghost predicate IsHeading(lines: seq<string>, i: nat) {
    && BodyStart(lines) <= i < |lines| && HeadingBody(lines[i]).Some? && !InFence(lines, i)
  }

  datatype Heading = Heading(id: Option<string>, line: nat)

  /** What line i contributes. */
  ghost function Found(lines: seq<string>, i: nat): (r: Option<Heading>)
    requires i < |lines|
    ensures r.Some? ==> r.value.line == i + 1
  {
    if IsHeading(lines, i) then Some(Heading(ExplicitId(HeadingBody(lines[i]).value), i + 1)) else None
  }

  ghost function Marks(lines: seq<string>): (marks: seq<Option<Heading>>)
    ensures OwnLines(marks)
  {
    seq(|lines|, i requires 0 <= i < |lines| => Found(lines, i))
  }

  predicate OwnLines(marks: seq<Option<Heading>>) {
    forall i | 0 <= i < |marks| && marks[i].Some? :: marks[i].value.line == i + 1
  }

  function Somes(marks: seq<Option<Heading>>): seq<Heading> {
    if marks == [] then []
    else
      var last := marks[|marks| - 1];
      Somes(marks[..|marks| - 1]) + if last.Some? then [last.value] else []
  }

  /** The headings of a file. */
  ghost function HeadingList(lines: seq<string>): seq<Heading> {
    Somes(Marks(lines))
  }

  lemma {:induction false} SomesMeans(marks: seq<Option<Heading>>, h: Heading)
    ensures h in Somes(marks) <==> Some(h) in marks
  {
    if marks != [] {
      var init := marks[..|marks| - 1];
      SomesMeans(init, h);
      assert marks == init + [marks[|marks| - 1]];
    }
  }

  lemma NextSomes(marks: seq<Option<Heading>>, i: nat)
    requires i < |marks|
    ensures Somes(marks[..i + 1]) == if marks[i].Some? then Somes(marks[..i]) + [marks[i].value] else Somes(marks[..i])
  {
    assert marks[..i + 1][..i] == marks[..i];
  }

  lemma {:induction false} SomesOrdered(marks: seq<Option<Heading>>, a: nat, b: nat)
    requires OwnLines(marks) && a < b < |Somes(marks)|
    ensures Somes(marks)[a].line < Somes(marks)[b].line
  {
    var init := marks[..|marks| - 1];
    if b < |Somes(init)| {
      SomesOrdered(init, a, b);
    } else {
      SomesMeans(init, Somes(init)[a]);
    }
  }

  lemma MarksAt(lines: seq<string>, i: nat)
    requires i < |lines|
    ensures |Marks(lines)| == |lines| && Marks(lines)[i] == Found(lines, i)
  {
  }

  lemma ListedAt(lines: seq<string>, marks: seq<Option<Heading>>, i: nat, h: Heading)
    requires marks == Marks(lines) && i < |marks| && h.line == i + 1
    ensures h in HeadingList(lines) <==> marks[i] == Some(h)
  {
    SomesAt(marks, h);
  }

  /** Exactly the heading-shaped lines outside front matter and outside fences, each with its own id, */
  lemma HeadingListMeans(lines: seq<string>, i: nat, h: Heading)
    requires i < |lines| && h.line == i + 1
    ensures h in HeadingList(lines) <==> Found(lines, i) == Some(h)
  {
    MarksAt(lines, i);
    ListedAt(lines, Marks(lines), i, h);
  }

  lemma ListedLines(lines: seq<string>, h: Heading)
    requires h in HeadingList(lines)
    ensures 1 <= h.line <= |lines|
  {
    SomesAt(Marks(lines), h);
  }

  lemma SomesAt(marks: seq<Option<Heading>>, h: Heading)
    requires OwnLines(marks)
    ensures h in Somes(marks) <==> 1 <= h.line <= |marks| && marks[h.line - 1] == Some(h)
  {
    SomesMeans(marks, h);
    if Some(h) in marks {
      var i :| 0 <= i < |marks| && marks[i] == Some(h);
      assert marks[i].value.line == i + 1;
    }
  }

  /** in strictly increasing line order. */
  lemma HeadingListOrdered(lines: seq<string>, a: nat, b: nat)
    requires a < b < |HeadingList(lines)|
    ensures HeadingList(lines)[a].line < HeadingList(lines)[b].line
  {
    SomesOrdered(Marks(lines), a, b);
  }

  /** At most one fence is open at a time. */
  lemma OneFence(lines: seq<string>, o: nat, o': nat, i: nat)
    requires OpenedBy(lines, o, i) && OpenedBy(lines, o', i)
    ensures o == o'
  {
    if o < o' {
      OpenedIsInFence(lines, o, o');
    } else if o' < o {
      OpenedIsInFence(lines, o', o);
    }
  }

  /** A fence line is not a heading. */
  lemma FenceIsNoHeading(line: string)
    requires OpeningFence(line).Some?
    ensures HeadingBody(line).None?
  {
    var u := Unindented(line).value;
    assert u[0] == MarkerOf(u) && u[0] != '#';
  }

  /** The loop's state before line i. */
  ghost predicate ScanState(lines: seq<string>, i: nat, inFrontMatter: bool, fence: Option<Fence>)
    requires i <= |lines|
  {
    && (inFrontMatter <==> i < BodyStart(lines))
    && (fence.None? ==> !InFence(lines, i))
    && (fence.Some? ==> exists o | 0 <= o < i :: OpenedBy(lines, o, i) && OpeningFence(lines[o]) == fence)
  }

  lemma {:induction false} FrontMatterLine(lines: seq<string>, n: nat, i: nat)
    requires n <= i < |lines| && i < FrontMatterEnd(lines, n)
    ensures EndsFrontMatter(lines[i]) <==> FrontMatterEnd(lines, n) == i + 1
    decreases i - n
  {
    if n < i {
      FrontMatterLine(lines, n + 1, i);
    }
  }

  lemma NoFenceYet(lines: seq<string>, i: nat)
    requires i <= |lines| && i <= BodyStart(lines)
    ensures !InFence(lines, i)
  {
  }

  lemma FrontStep(lines: seq<string>, i: nat, fence: Option<Fence>)
    requires i < |lines| && ScanState(lines, i, true, fence)
    ensures ScanState(lines, i + 1, !(i > 0 && EndsFrontMatter(lines[i])), fence)
    ensures Found(lines, i) == None
  {
    NoFenceYet(lines, i);
    NoFenceYet(lines, i + 1);
    if i > 0 {
      FrontMatterLine(lines, 1, i);
    }
  }

  lemma FenceStep(lines: seq<string>, i: nat, fence: Fence)
    requires i < |lines| && ScanState(lines, i, false, Some(fence))
    ensures ScanState(lines, i + 1, false, if Closes(fence, lines[i]) then None else Some(fence))
    ensures Found(lines, i) == None
  {
    var o: nat :| o < i && OpenedBy(lines, o, i) && OpeningFence(lines[o]) == Some(fence);
    OpenedIsInFence(lines, o, i);
    if Closes(fence, lines[i]) {
      FenceCloses(lines, o, i);
    } else {
      FenceContinues(lines, o, i);
    }
  }

  lemma FenceContinues(lines: seq<string>, o: nat, i: nat)
    requires i < |lines| && OpenedBy(lines, o, i) && !Closes(OpeningFence(lines[o]).value, lines[i])
    ensures OpenedBy(lines, o, i + 1)
  {
  }

  lemma FenceCloses(lines: seq<string>, o: nat, i: nat)
    requires i < |lines| && OpenedBy(lines, o, i) && Closes(OpeningFence(lines[o]).value, lines[i])
    ensures !InFence(lines, i + 1)
  {
    if InFence(lines, i + 1) {
      var o' := Opener(lines, i + 1);
      OpenedIsInFence(lines, o, i);
      StillOpen(lines, o', i);
      OneFence(lines, o, o', i);
    }
  }

  /** A fence open after line i that i did not open was open before it, and i does not close it. */
  lemma StillOpen(lines: seq<string>, o: nat, i: nat)
    requires i < |lines| && OpenedBy(lines, o, i + 1) && (InFence(lines, i) || OpeningFence(lines[i]).None?)
    ensures o < i && OpenedBy(lines, o, i) && !Closes(OpeningFence(lines[o]).value, lines[i])
  {
  }

  lemma PlainStep(lines: seq<string>, i: nat)
    requires i < |lines| && ScanState(lines, i, false, None)
    ensures ScanState(lines, i + 1, false, OpeningFence(lines[i]))
    ensures IsHeading(lines, i) <==> HeadingBody(lines[i]).Some?
  {
    if OpeningFence(lines[i]).Some? {
      assert OpenedBy(lines, i, i + 1);
    } else if InFence(lines, i + 1) {
      var o := Opener(lines, i + 1);
      StillOpen(lines, o, i);
      OpenedIsInFence(lines, o, i);
    }
  }

  /** The loop's body. */
  method ScanLine(lines: seq<string>, i: nat, inFrontMatter: bool, fence: Option<Fence>)
    returns (inFrontMatter': bool, fence': Option<Fence>, found: Option<Heading>)
    requires i < |lines| && ScanState(lines, i, inFrontMatter, fence)
    ensures ScanState(lines, i + 1, inFrontMatter', fence')
    ensures found == Marks(lines)[i]
  {
    MarksAt(lines, i);
    inFrontMatter', fence', found := inFrontMatter, fence, None;
    var line := lines[i];
    if inFrontMatter {
      FrontStep(lines, i, fence);
      if i > 0 && EndsFrontMatter(line) {
        inFrontMatter' := false;
      }
    } else if fence.Some? {
      FenceStep(lines, i, fence.value);
      if Closes(fence.value, line) {
        fence' := None;
      }
    } else {
      PlainStep(lines, i);
      fence' := OpeningFence(line);
      if fence'.Some? {
        FenceIsNoHeading(line);
      } else {
        var body := HeadingBody(line);
        if body.Some? {
          found := Some(Heading(ExplicitId(body.value), i + 1));
        }
      }
    }
  }

  /** `extractMarkdownHeadings`: one pass, at most one open fence. */
  method ExtractMarkdownHeadings(content: string) returns (headings: seq<Heading>)
    ensures var lines := Split(StripBom(content)); headings == HeadingList(lines)
  {
    var lines := Split(StripBom(content));
    headings := [];
    var fence: Option<Fence> := None;
    var inFrontMatter := HasFrontMatter(lines);
    for i := 0 to |lines|
      invariant ScanState(lines, i, inFrontMatter, fence)
      invariant headings == Somes(Marks(lines)[..i])
    {
      var found: Option<Heading>;
      inFrontMatter, fence, found := ScanLine(lines, i, inFrontMatter, fence);
      NextSomes(Marks(lines), i);
      if found.Some? {
        headings := headings + [found.value];
      }
    }
    assert Marks(lines)[..|lines|] == Marks(lines);
  }
}
