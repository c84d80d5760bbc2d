/** Texts as lines, and trailing white space. */
module TextLines {

  /** One more character: a newline opens a new piece. */
  function PushChar(pieces: seq<string>, c: char): (more: seq<string>)
    requires pieces != []
    ensures more != []
  {
    if c == '\n' then pieces + [""]
    else pieces[..|pieces| - 1] + [pieces[|pieces| - 1] + [c]]
  }

  /** The pieces between newlines; one more than there are newlines. */
  function Pieces(s: string): (pieces: seq<string>)
    ensures pieces != []
  {
    if s == "" then [""] else PushChar(Pieces(s[..|s| - 1]), s[|s| - 1])
  }

  /** What `std::getline` yields: a final newline ends a line, it does not start one. */
  function Lines(text: string): seq<string> {
    if text == "" then []
    else if text[|text| - 1] == '\n' then Pieces(text[..|text| - 1])
    else Pieces(text)
  }

  predicate IsSpace(c: char) {
    c == ' ' || c == '\t' || c == '\n' || c == '\r' || c == '\U{000B}' || c == '\U{000C}'
  }

  function TrimRight(s: string): string {
    if s != "" && IsSpace(s[|s| - 1]) then TrimRight(s[..|s| - 1]) else s
  }

  method PopTrailingSpace(s: string) returns (trimmed: string)
    ensures trimmed == TrimRight(s)
  {
    trimmed := s;
    while trimmed != "" && IsSpace(trimmed[|trimmed| - 1])
      invariant TrimRight(trimmed) == TrimRight(s)
      decreases |trimmed|
    {
      trimmed := trimmed[..|trimmed| - 1];
    }
  }

  // ---------------------------------------------------------------------------
  // Theory
  // ---------------------------------------------------------------------------

  lemma PiecesOfOneMore(s: string, c: char)
    ensures Pieces(s + [c]) == PushChar(Pieces(s), c)
  {
    assert (s + [c])[..|s|] == s;
  }

  lemma PushCharOnLastPart(a: seq<string>, b: seq<string>, c: char)
    requires b != []
    ensures PushChar(a + b, c) == a + PushChar(b, c)
  {
    if c != '\n' {
      assert (a + b)[..|a + b| - 1] == a + b[..|b| - 1];
    }
  }

  /** A piece holds no newline. */
  lemma {:induction false} PiecesHaveNoNewline(s: string)
    ensures forall p :: p in Pieces(s) ==> '\n' !in p
  {
    if s != "" {
      PiecesHaveNoNewline(s[..|s| - 1]);
    }
  }

  lemma {:induction false} LineHasOnePiece(line: string)
    requires '\n' !in line
    ensures Pieces(line) == [line]
  {
    if line != "" {
      var shorter, last := line[..|line| - 1], line[|line| - 1];
      LineHasOnePiece(shorter);
      assert last in line && line == shorter + [last];
    }
  }

  /** Splitting distributes over a newline. */
  lemma {:induction false} PiecesOfJoin(s: string, t: string)
    ensures Pieces(s + "\n" + t) == Pieces(s) + Pieces(t)
  {
    if t == "" {
      PiecesOfOneMore(s, '\n');
      assert s + "\n" + t == s + ['\n'];
    } else {
      var shorter, last := t[..|t| - 1], t[|t| - 1];
      PiecesOfJoin(s, shorter);
      PiecesOfOneMore(s + "\n" + shorter, last);
      assert s + "\n" + t == (s + "\n" + shorter) + [last];
      PushCharOnLastPart(Pieces(s), Pieces(shorter), last);
    }
  }

  /** Appending a terminated text to a terminated text appends its lines. */
  lemma {:induction false} LinesOfJoin(s: string, t: string)
    requires s == "" || s[|s| - 1] == '\n'
    ensures Lines(s + t + "\n") == Lines(s) + Pieces(t)
  {
    hide Pieces;
    var joined := s + t + "\n";
    assert joined[..|joined| - 1] == s + t;
    if s == "" {
      assert s + t == t;
    } else {
      var init := s[..|s| - 1];
      assert s + t == init + "\n" + t;
      PiecesOfJoin(init, t);
    }
  }

  lemma {:induction false} TrimRightIsIdempotent(s: string)
    ensures TrimRight(TrimRight(s)) == TrimRight(s)
  {
    if s != "" && IsSpace(s[|s| - 1]) {
      TrimRightIsIdempotent(s[..|s| - 1]);
    }
  }

  lemma TrimRightDropsNewline(s: string)
    ensures TrimRight(s + "\n") == TrimRight(s)
  {
    assert (s + "\n")[..|s|] == s;
  }
}
