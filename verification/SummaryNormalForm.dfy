/** Normalising a summary is idempotent, always yields the six headings in order,
    and keeps every body that is already in normal form. */
module SummaryNormalForm {
  import opened TextLines
  import opened SummarySections

  ghost predicate NoHeading(lines: seq<string>) {
    forall i :: 0 <= i < |lines| ==> HeadingIndex(lines[i]) == COUNT
  }

  /** What reading can produce: no leading empty line and no line that is a heading. */
  ghost predicate IsRaw(body: string) {
    body == "" || (body[0] != '\n' && NoHeading(Pieces(body)))
  }

  /** A body that normalising leaves alone. */
  ghost predicate IsNormal(body: string) {
    body != "" && TrimRight(body) == body && IsRaw(body)
  }

  ghost predicate AllNormal(bodies: seq<string>) {
    |bodies| == COUNT && forall i :: 0 <= i < COUNT ==> IsNormal(bodies[i])
  }

  // ---------------------------------------------------------------------------
  // What reading produces
  // ---------------------------------------------------------------------------

  lemma LinesHaveNoNewline(text: string)
    ensures forall l :: l in Lines(text) ==> '\n' !in l
  {
    if text != "" {
      PiecesHaveNoNewline(text);
      PiecesHaveNoNewline(text[..|text| - 1]);
    }
  }

  lemma AddLineKeepsRaw(body: string, line: string)
    requires IsRaw(body) && '\n' !in line && HeadingIndex(line) == COUNT
    ensures IsRaw(AddLine(body, line))
  {
    hide HeadingIndex, Pieces;
    LineHasOnePiece(line);
    PiecesOfJoin(body, line);
    assert line != "" ==> line[0] in line;
  }

  lemma {:induction false} ReadingKeepsRaw(lines: seq<string>)
    requires forall l :: l in lines ==> '\n' !in l
    ensures forall i :: 0 <= i < COUNT ==> IsRaw(Read(lines).bodies[i])
  {
    hide IsRaw, HeadingIndex, AddLine;
    if lines == [] {
      EmptyIsRaw();
    } else {
      var before, last := Read(lines[..|lines| - 1]), lines[|lines| - 1];
      ReadingKeepsRaw(lines[..|lines| - 1]);
      if HeadingIndex(last) == COUNT && before.current != COUNT {
        AddLineKeepsRaw(before.bodies[before.current], last);
      }
    }
  }

  lemma EmptyIsRaw()
    ensures IsRaw("")
  {
  }

  /** Dropping one trailing space turns no line into a heading. */
  lemma DropSpaceKeepsRaw(body: string)
    requires IsRaw(body) && body != "" && IsSpace(body[|body| - 1])
    ensures IsRaw(body[..|body| - 1])
  {
    hide IsSpace;
    var shorter, c := body[..|body| - 1], body[|body| - 1];
    var pieces := Pieces(shorter);
    assert Pieces(body) == PushChar(pieces, c);
    forall i | 0 <= i < |pieces| ensures HeadingIndex(pieces[i]) == COUNT {
      assert HeadingIndex(Pieces(body)[i]) == COUNT;
      if c != '\n' && i == |pieces| - 1 {
        HeadingIgnoresSpace(pieces[i], c);
      }
    }
  }

  lemma HeadingIgnoresSpace(line: string, c: char)
    requires IsSpace(c)
    ensures HeadingIndex(line + [c]) == HeadingIndex(line)
  {
    assert (line + [c])[..|line|] == line;
    assert TrimRight(line + [c]) == TrimRight(line);
  }

  lemma {:induction false} TrimKeepsRaw(body: string)
    requires IsRaw(body)
    ensures IsRaw(TrimRight(body))
    decreases |body|
  {
    hide IsRaw;
    if body != "" && IsSpace(body[|body| - 1]) {
      DropSpaceKeepsRaw(body);
      TrimKeepsRaw(body[..|body| - 1]);
    }
  }

  lemma PlaceholderIsNormal()
    ensures IsNormal("(none)")
  {
    LineHasOnePiece("(none)");
    assert TrimRight("(none)") == "(none)";
    assert forall i :: 0 <= i < COUNT ==> Heading(i)[0] == '#';
    assert HeadingIndex("(none)") == COUNT;
  }

  lemma ShownIsNormal(body: string)
    requires IsRaw(body)
    ensures IsNormal(Shown(body))
  {
    hide IsRaw;
    PlaceholderIsNormal();
    TrimKeepsRaw(body);
    TrimRightIsIdempotent(body);
  }

  // ---------------------------------------------------------------------------
  // Reading back what was rendered
  // ---------------------------------------------------------------------------

  function AddLines(body: string, lines: seq<string>): string {
    if lines == [] then body else AddLine(AddLines(body, lines[..|lines| - 1]), lines[|lines| - 1])
  }

  lemma {:induction false} ReadRun(before: seq<string>, lines: seq<string>)
    requires NoHeading(lines) && Read(before).current < COUNT
    ensures var r := Read(before);
            Read(before + lines) == r.(bodies := r.bodies[r.current := AddLines(r.bodies[r.current], lines)])
  {
    hide HeadingIndex, AddLine;
    if lines == [] {
      assert before + lines == before;
    } else {
      var shorter, last := lines[..|lines| - 1], lines[|lines| - 1];
      ReadRun(before, shorter);
      assert (before + lines)[..|before + lines| - 1] == before + shorter;
    }
  }

  /** The pieces of a body without leading empty line put the body together again. */
  lemma {:induction false} PiecesAddUp(body: string)
    requires body == "" || body[0] != '\n'
    ensures AddLines("", Pieces(body)) == body
  {
    if body == "" {
      assert [""][..0] == [] && AddLines("", [""]) == AddLine(AddLines("", []), "");
    } else {
      var shorter, c := body[..|body| - 1], body[|body| - 1];
      PiecesAddUp(shorter);
      AddPushedChar(Pieces(shorter), c);
      assert body == shorter + [c];
    }
  }

  lemma AddPushedChar(pieces: seq<string>, c: char)
    requires pieces != [] && (c == '\n' ==> AddLines("", pieces) != "")
    ensures AddLines("", PushChar(pieces, c)) == AddLines("", pieces) + [c]
  {
    var more := PushChar(pieces, c);
    if c == '\n' {
      assert more[..|more| - 1] == pieces;
    } else {
      assert more[..|more| - 1] == pieces[..|pieces| - 1];
    }
  }

  lemma HeadingsAreHeadings(i: nat)
    requires i < COUNT
    ensures '\n' !in Heading(i) && TrimRight(Heading(i)) == Heading(i) && HeadingIndex(Heading(i)) == i
    ensures HeadingIndex("") == COUNT
  {
    HeadingShape(i);
    forall j | 0 <= j < COUNT && j != i ensures Heading(j) != Heading(i) {
      HeadingShape(j);
    }
  }

  lemma HeadingShape(i: nat)
    requires i < COUNT
    ensures |Heading(i)| > 3 && !IsSpace(Heading(i)[|Heading(i)| - 1])
    ensures Heading(i)[3] ==
            match i case 0 => 'G' case 1 => 'K' case 2 => 'C' case 3 => 'N' case 4 => 'O' case _ => 'R'
    ensures '\n' !in Heading(i)
  {
  }

  /** The lines of the first `n` rendered sections. */
  function RenderedLines(bodies: seq<string>, n: nat): seq<string>
    requires n <= |bodies| == COUNT
  {
    if n == 0 then []
    else RenderedLines(bodies, n - 1) + (if n > 1 then [""] else []) + [Heading(n - 1)] + Pieces(bodies[n - 1])
  }

  lemma RenderedEndsLine(bodies: seq<string>, n: nat)
    requires n <= |bodies| == COUNT
    ensures Rendered(bodies, n) == "" || Rendered(bodies, n)[|Rendered(bodies, n)| - 1] == '\n'
  {
  }

  lemma {:induction false} LinesOfRendered(bodies: seq<string>, n: nat)
    requires n <= |bodies| == COUNT
    ensures Lines(Rendered(bodies, n)) == RenderedLines(bodies, n)
  {
    hide Lines, Pieces, Heading;
    if n == 0 {
      NoLines();
    } else {
      var text, body := Rendered(bodies, n - 1), bodies[n - 1];
      RenderedEndsLine(bodies, n - 1);
      LinesOfRendered(bodies, n - 1);
      var spaced := if n > 1 then text + "\n" else text;
      if n > 1 {
        LinesOfJoin(text, "");
        LineHasOnePiece("");
        assert text + "" + "\n" == spaced;
      }
      HeadingShape(n - 1);
      LineHasOnePiece(Heading(n - 1));
      LinesOfJoin(spaced, Heading(n - 1));
      LinesOfJoin(spaced + Heading(n - 1) + "\n", body);
    }
  }

  lemma NoLines()
    ensures Lines("") == []
  {
  }

  /** What reading the first `n` rendered sections leaves: every body, and behind all
      but the last the separating empty line. */
  function ReadBack(bodies: seq<string>, n: nat): Reader
    requires n <= |bodies| == COUNT
  {
    Reader(if n == 0 then COUNT else n - 1,
           seq(COUNT, i requires 0 <= i < COUNT =>
             if i + 1 < n then bodies[i] + "\n" else if i + 1 == n then bodies[i] else ""))
  }

  lemma ReadOneMore(lines: seq<string>, line: string)
    ensures Read(lines + [line]) == Step(Read(lines), line)
  {
    assert (lines + [line])[..|lines|] == lines;
  }

  lemma {:induction false} ReadingUndoesRendering(bodies: seq<string>, n: nat)
    requires AllNormal(bodies) && n <= COUNT
    ensures Read(RenderedLines(bodies, n)) == ReadBack(bodies, n)
  {
    if n > 0 {
      ReadingUndoesRendering(bodies, n - 1);
      ReadSection(bodies, n);
    }
  }

  lemma {:induction false} ReadSection(bodies: seq<string>, n: nat)
    requires AllNormal(bodies) && 0 < n <= COUNT
    requires Read(RenderedLines(bodies, n - 1)) == ReadBack(bodies, n - 1)
    ensures Read(RenderedLines(bodies, n)) == ReadBack(bodies, n)
  {
    hide Read, Heading, HeadingIndex, Pieces, TrimRight;
    var before, body := RenderedLines(bodies, n - 1), bodies[n - 1];
    HeadingsAreHeadings(n - 1);
    var spaced := before + if n > 1 then [""] else [];
    if n > 1 {
      ReadOneMore(before, "");
      assert AddLine(bodies[n - 2], "") == bodies[n - 2] + "\n";
    } else {
      assert spaced == before;
    }
    ReadOneMore(spaced, Heading(n - 1));
    assert IsNormal(body);
    ReadRun(spaced + [Heading(n - 1)], Pieces(body));
    PiecesAddUp(body);
    assert ReadBack(bodies, n).bodies == Read(RenderedLines(bodies, n)).bodies;
  }

  /** A text rendered from normal bodies is read back exactly. */
  lemma {:induction false} NormalBodiesArePreserved(bodies: seq<string>)
    requires AllNormal(bodies)
    ensures ShownBodies(Read(Lines(Rendered(bodies, COUNT))).bodies) == bodies
    ensures Normalized(Rendered(bodies, COUNT)) == Rendered(bodies, COUNT)
  {
    LinesOfRendered(bodies, COUNT);
    ReadingUndoesRendering(bodies, COUNT);
    var back := ReadBack(bodies, COUNT).bodies;
    forall i | 0 <= i < COUNT ensures Shown(back[i]) == bodies[i] {
      assert IsNormal(bodies[i]);
      TrimRightDropsNewline(bodies[i]);
    }
    assert ShownBodies(back) == bodies;
  }

  /** Whatever the input, the output is rendered from six normal bodies. */
  lemma OutputIsNormal(text: string)
    ensures AllNormal(ShownBodies(Read(Lines(text)).bodies))
  {
    hide IsRaw, Shown;
    LinesHaveNoNewline(text);
    ReadingKeepsRaw(Lines(text));
    var bodies := Read(Lines(text)).bodies;
    forall i | 0 <= i < COUNT ensures IsNormal(ShownBodies(bodies)[i]) {
      ShownIsNormal(bodies[i]);
    }
  }

  lemma NormalizingIsIdempotent(text: string)
    ensures Normalized(Normalized(text)) == Normalized(text)
  {
    OutputIsNormal(text);
    NormalBodiesArePreserved(ShownBodies(Read(Lines(text)).bodies));
  }

  // ---------------------------------------------------------------------------
  // The headings of the output
  // ---------------------------------------------------------------------------

  /** The headings among `lines`, in order. */
  function HeadingsIn(lines: seq<string>): seq<nat> {
    if lines == [] then []
    else
      var last := HeadingIndex(lines[|lines| - 1]);
      HeadingsIn(lines[..|lines| - 1]) + if last == COUNT then [] else [last]
  }

  lemma {:induction false} HeadingsOfConcat(a: seq<string>, b: seq<string>)
    ensures HeadingsIn(a + b) == HeadingsIn(a) + HeadingsIn(b)
  {
    hide HeadingIndex;
    if b == [] {
      assert a + b == a;
    } else {
      HeadingsOfConcat(a, b[..|b| - 1]);
      assert (a + b)[..|a + b| - 1] == a + b[..|b| - 1];
    }
  }

  lemma {:induction false} NoHeadingsIn(lines: seq<string>)
    requires NoHeading(lines)
    ensures HeadingsIn(lines) == []
  {
    if lines != [] {
      NoHeadingsIn(lines[..|lines| - 1]);
    }
  }

  lemma {:induction false} HeadingsOfRendered(bodies: seq<string>, n: nat)
    requires AllNormal(bodies) && n <= COUNT
    ensures HeadingsIn(RenderedLines(bodies, n)) == seq(n, i => i)
  {
    hide HeadingIndex, Heading, Pieces, TrimRight;
    if n > 0 {
      var blank := if n > 1 then [""] else [];
      HeadingsOfRendered(bodies, n - 1);
      HeadingsAreHeadings(n - 1);
      assert IsNormal(bodies[n - 1]);
      HeadingsOfSection(RenderedLines(bodies, n - 1), blank, Heading(n - 1), Pieces(bodies[n - 1]));
    }
  }

  lemma HeadingsOfSection(before: seq<string>, blank: seq<string>, heading: string, body: seq<string>)
    requires NoHeading(blank) && NoHeading(body) && HeadingIndex(heading) != COUNT
    ensures HeadingsIn(before + blank + [heading] + body) == HeadingsIn(before) + [HeadingIndex(heading)]
  {
    NoHeadingsIn(body);
    NoHeadingsIn(blank);
    assert [heading][..0] == [] && HeadingsIn([heading]) == [HeadingIndex(heading)];
    hide HeadingsIn, HeadingIndex, NoHeading;
    HeadingsOfConcat(before, blank);
    HeadingsOfConcat(before + blank, [heading]);
    HeadingsOfConcat(before + blank + [heading], body);
  }

  /** The output holds the six headings once each, in order. */
  lemma {:induction false} OutputHasEachHeadingOnce(text: string)
    ensures HeadingsIn(Lines(Normalized(text))) == seq(COUNT, i => i)
  {
    hide HeadingsIn, Lines, Read, Rendered, RenderedLines, AllNormal;
    var bodies := ShownBodies(Read(Lines(text)).bodies);
    OutputIsNormal(text);
    LinesOfRendered(bodies, COUNT);
    HeadingsOfRendered(bodies, COUNT);
  }
}
