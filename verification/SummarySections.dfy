/** Normalising a handoff summary into its six fixed sections. */
module SummarySections {
  import opened TextLines

  // ---------------------------------------------------------------------------
  // Headings
  // ---------------------------------------------------------------------------

  const COUNT: nat := 6

  function Heading(i: nat): string
    requires i < COUNT
  {
    match i
    case 0 => "## Goal"
    case 1 => "## Key Decisions"
    case 2 => "## Current State"
    case 3 => "## Next Steps"
    case 4 => "## Open Questions"
    case _ => "## Relevant Files"
  }

  /** Which heading a line is, or COUNT when it is none. */
  function HeadingIndex(line: string): (i: nat)
    ensures i <= COUNT
  {
    var trimmed := TrimRight(line);
    if trimmed == Heading(0) then 0 else if trimmed == Heading(1) then 1 else if trimmed == Heading(2) then 2
    else if trimmed == Heading(3) then 3 else if trimmed == Heading(4) then 4 else if trimmed == Heading(5) then 5
    else COUNT
  }

  method FindHeading(line: string) returns (index: nat)
    ensures index == HeadingIndex(line)
  {
    var trimmed := PopTrailingSpace(line);
    for candidate := 0 to COUNT
      invariant forall i :: 0 <= i < candidate ==> trimmed != Heading(i)
    {
      if trimmed == Heading(candidate) {
        return candidate;
      }
    }
    return COUNT;
  }

  // ---------------------------------------------------------------------------
  // Reading the sections
  // ---------------------------------------------------------------------------

  /** The section being read, COUNT before the first heading, and all bodies so far. */
  datatype Reader = Reader(current: nat, bodies: seq<string>)

  function Start(): Reader {
    Reader(COUNT, seq(COUNT, i => ""))
  }

  /** A newline separates a line from a body that is not empty. */
  function AddLine(body: string, line: string): string {
    if body == "" then line else body + "\n" + line
  }

  function Step(reader: Reader, line: string): (next: Reader)
    requires reader.current <= COUNT == |reader.bodies|
    ensures next.current <= COUNT == |next.bodies|
  {
    var index := HeadingIndex(line);
    if index != COUNT then reader.(current := index)
    else if reader.current == COUNT then reader
    else reader.(bodies := reader.bodies[reader.current := AddLine(reader.bodies[reader.current], line)])
  }

  function Read(lines: seq<string>): (reader: Reader)
    ensures reader.current <= COUNT == |reader.bodies|
  {
    if lines == [] then Start() else Step(Read(lines[..|lines| - 1]), lines[|lines| - 1])
  }

  // ---------------------------------------------------------------------------
  // Writing the sections
  // ---------------------------------------------------------------------------

  function Shown(body: string): string {
    if TrimRight(body) == "" then "(none)" else TrimRight(body)
  }

  /** The first `n` sections. */
  function Rendered(bodies: seq<string>, n: nat): string
    requires n <= |bodies| == COUNT
  {
    if n == 0 then ""
    else Rendered(bodies, n - 1) + (if n > 1 then "\n" else "") + Heading(n - 1) + "\n" + bodies[n - 1] + "\n"
  }

  function ShownBodies(bodies: seq<string>): (shown: seq<string>)
    requires |bodies| == COUNT
    ensures |shown| == COUNT
  {
    seq(COUNT, i requires 0 <= i < COUNT => Shown(bodies[i]))
  }

  function Normalized(text: string): string {
    Rendered(ShownBodies(Read(Lines(text)).bodies), COUNT)
  }

  method RenderSections(bodies: seq<string>) returns (out: string)
    requires |bodies| == COUNT
    ensures out == Rendered(ShownBodies(bodies), COUNT)
  {
    hide Heading, TrimRight;
    out := "";
    for i := 0 to COUNT
      invariant out == Rendered(ShownBodies(bodies), i)
    {
      if i != 0 {
        out := out + "\n";
      }
      out := out + Heading(i) + "\n";
      var body := PopTrailingSpace(bodies[i]);
      out := out + (if body == "" then "(none)" else body) + "\n";
    }
  }

  method NormalizeSummarySections(text: string) returns (out: string)
    ensures out == Normalized(text)
  {
    hide HeadingIndex, Heading, TrimRight;
    var lines := Lines(text);
    var bodies := seq(COUNT, i => "");
    var current := COUNT;
    for l := 0 to |lines|
      invariant Reader(current, bodies) == Read(lines[..l])
    {
      assert lines[..l + 1][..l] == lines[..l];
      var index := FindHeading(lines[l]);
      if index != COUNT {
        current := index;
        continue;
      }
      if current == COUNT {
        continue;
      }
      var body := bodies[current];
      if body != "" {
        body := body + "\n";
      }
      assert body + lines[l] == AddLine(bodies[current], lines[l]);
      bodies := bodies[current := body + lines[l]];
    }
    assert lines[..|lines|] == lines;
    out := RenderSections(bodies);
  }
}
