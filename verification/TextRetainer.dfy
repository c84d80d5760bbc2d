/** The retaining buffer itself: pushing chunks and assembling the retained text. */
module TextRetainers {
  import opened Utf8
  import opened Wrappers
  import opened Retention

  datatype Strategy = Head | Tail | HeadTail

  // ---------------------------------------------------------------------------
  // Cutting a character in half
  // ---------------------------------------------------------------------------

  /** `s` is a beginning of some well-formed text. */
  ghost predicate StartsWellFormed(s: bytes) {
    exists full :: s <= full && WellFormed(full)
  }

  function ExpectedLength(lead: byte): nat {
    if lead < 0x80 then 1 else if lead < 0xE0 then 2 else if lead < 0xF0 then 3 else if lead < 0xF8 then 4 else 0
  }

  /** Where the scan from the end stops: the last byte that is no tail byte, at most four back. */
  ghost predicate IsLastLead(s: bytes, index: int)
  {
    && -1 <= index < |s| && |s| - index <= 4
    && (forall i :: index < i < |s| ==> IsTail(s[i]))
    && (index >= 0 && |s| - index <= 3 ==> !IsTail(s[index]))
  }

  /** In a beginning of well-formed text that position starts the last character. */
  lemma LastLeadStartsLastChar(s: bytes, full: bytes, index: int)
    requires s != [] && s <= full && WellFormed(full) && IsLastLead(s, index)
    ensures 0 <= index && WellFormedRange(s, 0, index) && ExpectedLength(s[index]) > 0
    ensures |s| - index >= ExpectedLength(s[index]) ==> WellFormed(s)
  {
    assert forall i :: 0 <= i < |s| ==> s[i] == full[i];
    if index < 0 {
      assert false;
    }
    if |s| - index == 4 {
      TailRunsAreShort(full, 0, index, |full|);
      assert !IsTail(full[index]);
    }
    hide WellFormedRange;
    SplitAtBoundary(full, 0, index, |full|);
    MoveRange(full, 0, index, s, 0);
    LastCharIsWhole(s, full, index);
    if |s| - index >= ExpectedLength(s[index]) {
      JoinRanges(s, 0, index, |s|);
    }
  }

  lemma LastCharIsWhole(s: bytes, full: bytes, index: nat)
    requires s <= full && index < |s| && WellFormedRange(full, index, |full|)
    requires forall i :: index < i < |s| ==> IsTail(s[i])
    ensures ExpectedLength(s[index]) > 0
    ensures |s| - index >= ExpectedLength(s[index]) ==> WellFormedRange(s, index, |s|)
  {
    assert forall i :: 0 <= i < |s| ==> s[i] == full[i];
    var n :| 0 < n <= |full| - index && IsChar(full, index, n) && WellFormedRange(full, index + n, |full|);
    assert n == ExpectedLength(s[index]);
    if |s| - index >= n {
      assert IsChar(s, index, n);
      CharEndsAtCut(s, full, index, n);
      assert WellFormedRange(s, index + n, |s|);
    }
  }

  lemma CharEndsAtCut(s: bytes, full: bytes, index: nat, n: nat)
    requires index + n <= |s| <= |full| && WellFormedRange(full, index + n, |full|)
    requires forall i :: index < i < |s| ==> IsTail(full[i])
    requires n > 0
    ensures index + n == |s|
  {
  }

  /** How many tail bytes end `s`. */
  function TrailingTails(s: bytes): (n: nat)
    ensures n <= |s| && (forall i :: |s| - n <= i < |s| ==> IsTail(s[i]))
    ensures n < |s| ==> !IsTail(s[|s| - n - 1])
  {
    if s == [] || !IsTail(s[|s| - 1]) then 0 else 1 + TrailingTails(s[..|s| - 1])
  }

  /** Where the last character of `s` starts if its lead asks for more bytes, else the end. */
  function CutAt(s: bytes): (k: nat)
    ensures k <= |s| && |s| - k <= 3
    ensures k < |s| ==> !IsTail(s[k]) && forall i :: k < i < |s| ==> IsTail(s[i])
  {
    var n := TrailingTails(s);
    if n < 3 && n < |s| && n + 1 < ExpectedLength(s[|s| - n - 1]) then |s| - n - 1 else |s|
  }

  method TrimTrailingPartial(s: bytes) returns (trimmed: bytes)
    ensures trimmed == s[..CutAt(s)] && |s| - |trimmed| <= 3
    ensures StartsWellFormed(s) ==> WellFormed(trimmed)
    ensures WellFormed(s) ==> trimmed == s
  {
    CutLeavesWholeCharacters(s);
    hide StartsWellFormed, WellFormedRange;
    if s == [] {
      return s;
    }
    var index := |s| - 1;
    while index >= 0 && IsContinuation(s[index]) && |s| - index <= 3
      invariant -1 <= index < |s| && |s| - index <= 4
      invariant forall i :: index < i < |s| ==> IsTail(s[i])
    {
      MaskMeansRange(s[index]);
      index := index - 1;
    }
    if index < 0 {
      return s;
    }
    MaskMeansRange(s[index]);
    var expected := ExpectedLength(s[index]);
    if expected != 0 && |s| - index < expected {
      return s[..index];
    }
    return s;
  }

  /** Cutting a beginning of well-formed text back loses at most three bytes and leaves
      whole characters; whole characters are not cut. */
  lemma CutLeavesWholeCharacters(s: bytes)
    ensures StartsWellFormed(s) ==> WellFormed(s[..CutAt(s)])
    ensures WellFormed(s) ==> CutAt(s) == |s|
  {
    if s != [] && StartsWellFormed(s) {
      var full :| s <= full && WellFormed(full);
      var n := TrailingTails(s);
      var index := if n < 4 then |s| - n - 1 else |s| - 4;
      LastLeadStartsLastChar(s, full, index);
      SliceIsTake(s, CutAt(s));
      if WellFormed(s) {
        WholeCharactersStay(s, index);
      }
    }
    if s != [] && WellFormed(s) {
      assert s <= s;
    }
  }

  lemma SliceIsTake(s: bytes, n: nat)
    requires n <= |s|
    ensures s[..n] == s[0..n]
    ensures WellFormed(s[..n]) <==> WellFormedRange(s, 0, n)
  {
    assert s[..n] == s[0..n];
    SliceIsWellFormed(s, 0, n);
  }

  lemma WholeCharactersStay(s: bytes, index: int)
    requires s != [] && WellFormed(s) && IsLastLead(s, index)
    ensures 0 <= index && |s| - index >= ExpectedLength(s[index])
  {
    LastLeadStartsLastChar(s, s, index);
    SplitAtBoundaryOrEnd(s, index);
  }

  lemma SplitAtBoundaryOrEnd(s: bytes, index: nat)
    requires index < |s| && WellFormed(s) && IsLastLead(s, index)
    ensures |s| - index >= ExpectedLength(s[index])
  {
    if |s| - index == 4 {
      TailRunsAreShort(s, 0, index, |s|);
    }
    SplitAtBoundary(s, 0, index, |s|);
    var n :| 0 < n <= |s| - index && IsChar(s, index, n) && WellFormedRange(s, index + n, |s|);
  }

  // ---------------------------------------------------------------------------
  // The buffer
  // ---------------------------------------------------------------------------

  class TextRetainer {
    const headBudget: nat
    const tailBudget: nat
    var head: bytes
    var headEscaped: nat
    var tail: bytes
    var tailEscaped: nat
    var totalBytes: nat
    ghost var stream: bytes  // everything pushed so far

    /** Head and tail are what the whole stream determines. */
    ghost predicate Tracks()
      reads this
    {
      && head == HeadOf(stream, headBudget) && headEscaped == TotalWidth(head)
      && IsLongestFittingSuffix(stream, tailBudget, tail) && tailEscaped == TotalWidth(tail)
    }

    ghost predicate Valid()
      reads this
    {
      Tracks() && totalBytes == |stream|
    }

    constructor (strategy: Strategy, maxBytes: nat)
      ensures Valid() && stream == []
      ensures headBudget + tailBudget == maxBytes
      ensures match strategy
              case Head => tailBudget == 0
              case Tail => headBudget == 0
              case HeadTail => headBudget <= tailBudget <= headBudget + 1
    {
      headBudget := match strategy case Head => maxBytes case Tail => 0 case HeadTail => maxBytes / 2;
      tailBudget := match strategy case Head => 0 case Tail => maxBytes case HeadTail => maxBytes - maxBytes / 2;
      head, headEscaped, tail, tailEscaped, totalBytes, stream := [], 0, [], 0, 0, [];
      new;
      EmptyStream(headBudget, tailBudget);
    }

    function OmittedBytes(): nat
      reads this
    {
      var retained := |head| + |tail|;
      if totalBytes > retained then totalBytes - retained else 0
    }

    method PushByte(b: byte)
      requires Tracks()
      modifies this
      ensures Tracks() && stream == old(stream) + [b] && totalBytes == old(totalBytes)
    {
      hide HeadOf, IsLongestFittingSuffix, TotalWidth, EscapedWidth;
      ghost var longer := stream + [b];
      assert longer[..|longer| - 1] == stream;
      HeadOfOneMore(stream, b, headBudget);
      var width := EscapedWidth(b);
      if headEscaped + width <= headBudget {
        WidthOfOneMore(head, b);
        head := head + [b];
        headEscaped := headEscaped + width;
      }
      if tailBudget > 0 {
        WidthOfOneMore(tail, b);
        assert (tail + [b])[..|tail|] == tail;
        tail, tailEscaped := SlideTail(longer, tail + [b], tailEscaped + width, tailBudget);
      } else {
        EmptyTail(longer, tail);
      }
      stream := longer;
    }

    /** The new state is a function of the whole stream, so chunking is irrelevant. */
    method Push(chunk: bytes) returns (kept: bool, omitted: nat)
      requires Valid()
      modifies this
      ensures Valid() && stream == old(stream) + chunk
      ensures omitted == OmittedBytes() && kept == (omitted == old(OmittedBytes()))
    {
      var before := OmittedBytes();
      for i := 0 to |chunk|
        invariant Tracks() && stream == old(stream) + chunk[..i] && totalBytes == |old(stream)|
      {
        PushByte(chunk[i]);
        assert chunk[..i + 1] == chunk[..i] + [chunk[i]];
      }
      totalBytes := totalBytes + |chunk|;
      assert chunk[..|chunk|] == chunk;
      omitted := OmittedBytes();
      kept := omitted == before;
    }

    method Finish() returns (text: bytes, omitted: Option<nat>)
      requires Valid()
      ensures Retained(stream, headBudget, tail, text, omitted)
    {
      hide HeadOf, TotalWidth, Retained, LeadingTails, CutAt;
      HeadFitsBudget(stream, headBudget);
      if |head| + |tail| >= totalBytes {
        text := head;
        if |tail| > 0 {
          text := text + tail[|head| + |tail| - totalBytes..];
        }
        omitted := None;
        MeetingSlices(stream, head, tail, text);
        WholeIsRetained(stream, headBudget, tail, text);
        return;
      }
      var headText := TrimTrailingPartial(head);
      var tailText := TrimToUtf8Start(tail);
      text := headText + tailText;
      var missing := totalBytes - |text|;
      omitted := None;
      if missing > 0 {
        omitted := Some(missing);
      }
      CutIsRetained(stream, headBudget, tail, text);
    }
  }

  /** What `finish` returns for a stream. Where head and tail meet nothing counts as
      omitted, and the text is the head and what the stream holds from there on: the stream
      itself exactly if the head is a prefix, and of well-formed streams well-formed exactly
      if the bytes at the seam fit. Otherwise it is a cut of both ends and an exact count. */
  ghost predicate Retained(stream: bytes, headBudget: nat, tail: bytes, text: bytes, omitted: Option<nat>)
  {
    var head := HeadOf(stream, headBudget);
    if |head| + |tail| >= |stream| then
      && omitted == None && |head| <= |stream| && text == head + stream[|head|..]
      && (text == stream <==> NothingFitsLater(stream, headBudget))
      && (WellFormed(stream) ==> (WellFormed(text) <==> SeamFits(stream, headBudget)))
    else
      IsRetainedCut(stream, head, tail, text, omitted)
  }

  /** The head without a character cut at its end, then the tail without one cut at its
      start; of a well-formed stream both are well-formed, at a cost of at most three bytes
      each. */
  ghost predicate IsRetainedCut(stream: bytes, head: bytes, tail: bytes, text: bytes, omitted: Option<nat>) {
    && text == head[..CutAt(head)] + tail[LeadingTails(tail, 0)..]
    && |text| < |stream| && omitted == Some(|stream| - |text|)
    && (WellFormed(stream) ==> WellFormed(text) && |head| - CutAt(head) <= 3 && LeadingTails(tail, 0) <= 3)
  }

  // ---------------------------------------------------------------------------
  // Heads of well-formed streams
  // ---------------------------------------------------------------------------

  /** Only whole characters are left out while there is room: what is too wide is ASCII. */
  lemma {:induction false} HeadContinues(stream: bytes, budget: nat, k: nat) returns (full: bytes)
    requires k <= |stream| && WellFormed(stream)
    ensures var head := HeadOf(stream[..k], budget);
            && head <= full && WellFormed(full)
            && (TotalWidth(head) < budget ==> full == head + stream[k..])
    decreases k
  {
    hide WellFormedRange, HeadOf, TotalWidth, EscapedWidth;
    if k == 0 {
      assert stream[..0] == [] && [] + stream[0..] == stream;
      EmptyStream(budget, budget);
      full := stream;
    } else {
      var shorter, b := stream[..k - 1], stream[k - 1];
      var earlier := HeadContinues(stream, budget, k - 1);
      assert stream[..k] == shorter + [b] && stream[k - 1..] == [b] + stream[k..];
      HeadOfOneMore(shorter, b, budget);
      HeadFitsBudget(shorter, budget);
      full := ContinueOneMore(HeadOf(shorter, budget), b, stream[k..], budget, earlier);
    }
  }

  /** The head meets one more byte. */
  lemma ContinueOneMore(head: bytes, b: byte, rest: bytes, budget: nat, earlier: bytes) returns (full: bytes)
    requires head <= earlier && WellFormed(earlier) && TotalWidth(head) <= budget
    requires TotalWidth(head) < budget ==> earlier == head + ([b] + rest)
    ensures var next := if TotalWidth(head) + EscapedWidth(b) <= budget then head + [b] else head;
            && next <= full && WellFormed(full)
            && (TotalWidth(next) < budget ==> full == next + rest)
  {
    hide WellFormedRange, TotalWidth;
    full := earlier;
    if TotalWidth(head) < budget {
      assert earlier == head + [b] + rest;
      if TotalWidth(head) + EscapedWidth(b) > budget {
        LeaveOutAscii(head, b, rest);
        full := head + rest;
      }
    }
  }

  lemma LeaveOutAscii(before: bytes, b: byte, after: bytes)
    requires WellFormed(before + [b] + after) && b <= 0x7F
    ensures WellFormed(before + after)
  {
    var s, k := before + [b] + after, |before|;
    assert s[k] == b && s[..k] == before && s[k + 1..] == after && s[k..] == [b] + after;
    SplitAtBoundary(s, 0, k, |s|);
    assert IsChar(s, k, 1);
    OneCharacter(s, k, 1);
    DropWholeCharacters(s, k, k + 1, |s|);
    hide WellFormedRange;
    SliceIsWellFormed(s, 0, k);
    SliceIsWellFormed(s, k + 1, |s|);
    assert s[0..k] == before && s[k + 1..|s|] == after;
    ConcatIsWellFormed(before, after);
  }

  lemma OneCharacter(s: bytes, at: nat, n: nat)
    requires IsChar(s, at, n)
    ensures n > 0 && WellFormedRange(s, at, at + n)
  {
    assert WellFormedRange(s, at + n, at + n);
  }

  /** The head of well-formed text is a beginning of well-formed text, whatever the budget. */
  lemma HeadStartsWellFormed(stream: bytes, budget: nat)
    requires WellFormed(stream)
    ensures StartsWellFormed(HeadOf(stream, budget))
  {
    hide WellFormedRange, HeadOf, TotalWidth;
    var full := HeadContinues(stream, budget, |stream|);
    assert stream[..|stream|] == stream;
  }

  // ---------------------------------------------------------------------------
  // The seam of a whole text
  // ---------------------------------------------------------------------------

  /** The half character that ends the head and the half one the rest begins with: at most
      three bytes each. */
  function Seam(stream: bytes, headBudget: nat): bytes {
    var head := HeadOf(stream, headBudget);
    var rest := if |head| <= |stream| then stream[|head|..] else [];
    head[CutAt(head)..] + rest[..LeadingTails(rest, 0)]
  }

  /** There is none, or the halves happen to make up one character. */
  predicate SeamFits(stream: bytes, headBudget: nat) {
    var seam := Seam(stream, headBudget);
    seam == [] || IsChar(seam, 0, |seam|)
  }

  /** The text put together where head and tail meet is well-formed exactly if its seam is. */
  lemma WholeTextIsWellFormedExactly(stream: bytes, headBudget: nat)
    requires WellFormed(stream) && |HeadOf(stream, headBudget)| <= |stream|
    ensures var head := HeadOf(stream, headBudget);
            WellFormed(head + stream[|head|..]) <==> SeamFits(stream, headBudget)
  {
    var head := HeadOf(stream, headBudget);
    var rest := stream[|head|..];
    HeadStartsWellFormed(stream, headBudget);
    CutLeavesWholeCharacters(head);
    TrimmedSuffixIsWellFormed(stream, |head|);
    hide HeadOf, WellFormedRange, StartsWellFormed, IsChar;
    SeamOf(head, rest);
  }

  lemma SeamOf(head: bytes, rest: bytes)
    requires WellFormed(head[..CutAt(head)]) && WellFormed(rest[LeadingTails(rest, 0)..])
    ensures var seam := head[CutAt(head)..] + rest[..LeadingTails(rest, 0)];
            WellFormed(head + rest) <==> seam == [] || IsChar(seam, 0, |seam|)
  {
    var k, n := CutAt(head), LeadingTails(rest, 0);
    HalvesAreTails(head, rest);
    hide WellFormedRange, IsChar, CutAt, LeadingTails, IsTail;
    JoinedHalves(head[..k], head[k..], rest[..n], rest[n..]);
    CutAndJoin(head, k);
    CutAndJoin(rest, n);
  }

  lemma CutAndJoin(s: bytes, k: nat)
    requires k <= |s|
    ensures s[..k] + s[k..] == s
  {
  }

  lemma JoinedHalves(before: bytes, cut: bytes, tails: bytes, after: bytes)
    requires WellFormed(before) && WellFormed(after) && (after != [] ==> !IsTail(after[0]))
    requires (forall i :: 0 < i < |cut| ==> IsTail(cut[i])) && forall i :: 0 <= i < |tails| ==> IsTail(tails[i])
    ensures WellFormed((before + cut) + (tails + after)) <==>
            cut + tails == [] || IsChar(cut + tails, 0, |cut + tails|)
  {
    hide WellFormed, IsChar, IsTail;
    TailsBehindCut(cut, tails);
    JoinedAtSeam(before, cut + tails, after);
    Reassociate(before, cut, tails, after);
  }

  lemma HalvesAreTails(head: bytes, rest: bytes)
    ensures forall i :: 0 < i < |head| - CutAt(head) ==> IsTail(head[CutAt(head)..][i])
    ensures forall i :: 0 <= i < LeadingTails(rest, 0) ==> IsTail(rest[..LeadingTails(rest, 0)][i])
    ensures rest[LeadingTails(rest, 0)..] != [] ==> !IsTail(rest[LeadingTails(rest, 0)..][0])
  {
    var k := CutAt(head);
    forall i | 0 < i < |head| - k ensures IsTail(head[k..][i]) {
      assert head[k..][i] == head[k + i];
    }
  }

  lemma TailsBehindCut(cut: bytes, tails: bytes)
    requires (forall i :: 0 < i < |cut| ==> IsTail(cut[i])) && forall i :: 0 <= i < |tails| ==> IsTail(tails[i])
    ensures forall i :: 0 < i < |cut + tails| ==> IsTail((cut + tails)[i])
  {
    hide IsTail;
    forall i | 0 < i < |cut + tails| ensures IsTail((cut + tails)[i]) {
      assert (cut + tails)[i] == if i < |cut| then cut[i] else tails[i - |cut|];
    }
  }

  lemma Reassociate(a: bytes, b: bytes, c: bytes, d: bytes)
    ensures (a + b) + (c + d) == a + (b + c) + d
  {
  }

  /** Between whole characters, bytes of which only the first may be no tail byte. */
  lemma JoinedAtSeam(before: bytes, seam: bytes, after: bytes)
    requires WellFormed(before) && WellFormed(after) && forall i :: 0 < i < |seam| ==> IsTail(seam[i])
    requires after != [] ==> !IsTail(after[0])
    ensures WellFormed(before + seam + after) <==> seam == [] || IsChar(seam, 0, |seam|)
  {
    var s, j, k := before + seam + after, |before|, |before + seam|;
    assert s[0..j] == before && s[j..k] == seam && s[k..|s|] == after;
    SliceIsWellFormed(s, 0, j);
    SliceIsWellFormed(s, j, k);
    SliceIsWellFormed(s, k, |s|);
    if WellFormed(s) {
      DropWholeCharacters(s, 0, j, |s|);
      assert k < |s| ==> s[k] == after[0];
      SplitAtBoundary(s, j, k, |s|);
      AtMostOneCharacter(seam);
    } else if seam == [] {
      JoinRanges(s, 0, j, |s|);
    } else if IsChar(seam, 0, |seam|) {
      OneCharacter(seam, 0, |seam|);
      JoinRanges(s, 0, j, k);
      JoinRanges(s, 0, k, |s|);
    }
  }

  lemma AtMostOneCharacter(s: bytes)
    requires WellFormed(s) && forall i :: 0 < i < |s| ==> IsTail(s[i])
    ensures s == [] || IsChar(s, 0, |s|)
  {
    if s != [] {
      var n :| 0 < n <= |s| && IsChar(s, 0, n) && WellFormedRange(s, n, |s|);
    }
  }

  lemma {:induction false} WholeIsRetained(stream: bytes, headBudget: nat, tail: bytes, text: bytes)
    requires var head := HeadOf(stream, headBudget);
             && |head| <= |stream| <= |head| + |tail| && text == head + stream[|head|..]
             && (text == stream <==> head <= stream)
    ensures Retained(stream, headBudget, tail, text, None)
  {
    hide HeadOf, NothingFitsLater, SeamFits, WellFormedRange, IsRetainedCut;
    HeadIsPrefixExactlyWhenNothingFitsLater(stream, headBudget);
    if WellFormed(stream) {
      WholeTextIsWellFormedExactly(stream, headBudget);
    }
  }

  lemma {:induction false} CutIsRetained(stream: bytes, headBudget: nat, tail: bytes, text: bytes)
    requires |tail| <= |stream| && tail == stream[|stream| - |tail|..]
    requires var head := HeadOf(stream, headBudget);
             |head| + |tail| < |stream| && text == head[..CutAt(head)] + tail[LeadingTails(tail, 0)..]
    ensures Retained(stream, headBudget, tail, text, Some(|stream| - |text|))
  {
    hide HeadOf, CutAt, LeadingTails, WellFormedRange, NothingFitsLater, SeamFits;
    var head := HeadOf(stream, headBudget);
    if WellFormed(stream) {
      HeadStartsWellFormed(stream, headBudget);
      TrimmedEndsAreWellFormed(
        stream, head, tail, head[..CutAt(head)], tail[LeadingTails(tail, 0)..]);
    }
  }

  lemma WidthOfOneMore(s: bytes, b: byte)
    ensures TotalWidth(s + [b]) == TotalWidth(s) + EscapedWidth(b)
  {
    assert (s + [b])[..|s|] == s;
  }

  predicate IsSuffix(stream: bytes, s: bytes) {
    |s| <= |stream| && s == stream[|stream| - |s|..]
  }

  /** One more byte of the stream would not fit. */
  predicate NoLongerFits(stream: bytes, s: bytes, budget: nat)
    requires |s| <= |stream|
  {
    |s| < |stream| ==> TotalWidth(stream[|stream| - |s| - 1..]) > budget
  }

  lemma PopFront(stream: bytes, s: bytes, budget: nat)
    requires IsSuffix(stream, s) && s != []
    ensures IsSuffix(stream, s[1..]) && TotalWidth(s) == EscapedWidth(s[0]) + TotalWidth(s[1..])
    ensures TotalWidth(s) > budget ==> NoLongerFits(stream, s[1..], budget)
  {
    WidthWithoutFirst(s);
    hide TotalWidth, EscapedWidth;
    var from := |stream| - |s|;
    assert stream[from..][1..] == stream[from + 1..];
  }

  /** Pops the front until the tail fits again. */
  method SlideTail(ghost stream: bytes, tail: bytes, width: nat, budget: nat) returns (kept: bytes, keptWidth: nat)
    requires stream != [] && tail != [] && width == TotalWidth(tail)
    requires IsLongestFittingSuffix(stream[..|stream| - 1], budget, tail[..|tail| - 1])
    requires tail[|tail| - 1] == stream[|stream| - 1]
    ensures IsLongestFittingSuffix(stream, budget, kept) && keptWidth == TotalWidth(kept)
  {
    kept, keptWidth := tail, width;
    SuffixOfLonger(stream, tail, budget);
    assert IsSuffix(stream, kept) && NoLongerFits(stream, kept, budget);
    EmptyWidth();
    hide TotalWidth, EscapedWidth, IsSuffix, NoLongerFits, IsLongestFittingSuffix;
    while kept != [] && keptWidth > budget
      invariant |kept| <= |stream| && IsSuffix(stream, kept) && NoLongerFits(stream, kept, budget)
      invariant keptWidth == TotalWidth(kept)
      decreases |kept|
    {
      PopFront(stream, kept, budget);
      keptWidth := keptWidth - EscapedWidth(kept[0]);
      kept := kept[1..];
    }
    LongestIs(stream, kept, budget);
  }

  lemma LongestIs(stream: bytes, s: bytes, budget: nat)
    requires IsSuffix(stream, s) && NoLongerFits(stream, s, budget) && TotalWidth(s) <= budget
    ensures IsLongestFittingSuffix(stream, budget, s)
  {
    hide TotalWidth;
  }

  lemma EmptyStream(headBudget: nat, tailBudget: nat)
    ensures HeadOf([], headBudget) == [] && IsLongestFittingSuffix([], tailBudget, []) && TotalWidth([]) == 0
  {
  }

  lemma EmptyWidth()
    ensures TotalWidth([]) == 0
  {
  }

  lemma HeadOfOneMore(stream: bytes, b: byte, budget: nat)
    ensures HeadOf(stream + [b], budget) ==
            var head := HeadOf(stream, budget);
            if TotalWidth(head) + EscapedWidth(b) <= budget then head + [b] else head
  {
    hide TotalWidth, EscapedWidth;
    assert (stream + [b])[..|stream|] == stream;
  }

  lemma WidthWithoutFirst(s: bytes)
    requires s != []
    ensures TotalWidth(s) == EscapedWidth(s[0]) + TotalWidth(s[1..])
  {
    assert s == s[..1] + s[1..];
    WidthOfConcat(s[..1], s[1..]);
    assert s[..1][..0] == [];
  }

  lemma {:induction false} SuffixOfLonger(stream: bytes, tail: bytes, budget: nat)
    requires stream != [] && tail != []
    requires IsLongestFittingSuffix(stream[..|stream| - 1], budget, tail[..|tail| - 1])
    requires tail[|tail| - 1] == stream[|stream| - 1]
    ensures |tail| <= |stream| && tail == stream[|stream| - |tail|..]
    ensures |tail| < |stream| ==> TotalWidth(stream[|stream| - |tail| - 1..]) > budget
  {
    hide TotalWidth, EscapedWidth;
    var shorter, last, from := stream[..|stream| - 1], stream[|stream| - 1], |stream| - |tail|;
    SuffixOneMore(stream, from);
    assert tail == tail[..|tail| - 1] + [last];
    if |tail| < |stream| {
      SuffixOneMore(stream, from - 1);
      WidthOfOneMore(shorter[from - 1..], last);
    }
  }

  lemma SuffixOneMore(stream: bytes, from: nat)
    requires from < |stream|
    ensures stream[from..] == stream[..|stream| - 1][from..] + [stream[|stream| - 1]]
  {
  }

  lemma EmptyTail(stream: bytes, tail: bytes)
    requires stream != [] && IsLongestFittingSuffix(stream[..|stream| - 1], 0, tail)
    ensures IsLongestFittingSuffix(stream, 0, tail)
  {
    assert tail == [];
    var last := stream[|stream| - 1..];
    assert last[..0] == [];
  }

  /** A prefix and a suffix that meet make up the whole; a head that is no prefix cannot. */
  lemma {:induction false} MeetingSlices(stream: bytes, head: bytes, tail: bytes, text: bytes)
    requires |head| <= |stream| && |tail| <= |stream| && tail == stream[|stream| - |tail|..]
    requires |head| + |tail| >= |stream|
    requires text == if |tail| > 0 then head + tail[|head| + |tail| - |stream|..] else head
    ensures text == head + stream[|head|..] && (text == stream <==> head <= stream)
  {
    assert |tail| > 0 ==> tail[|head| + |tail| - |stream|..] == stream[|head|..];
    if head <= stream {
      assert stream[..|head|] + stream[|head|..] == stream;
    }
    assert head <= text;
  }

  lemma {:induction false} TrimmedEndsAreWellFormed(
    stream: bytes, head: bytes, tail: bytes, headText: bytes, tailText: bytes)
    requires WellFormed(stream) && StartsWellFormed(head)
    requires |tail| <= |stream| && tail == stream[|stream| - |tail|..]
    requires headText == head[..CutAt(head)] && tailText == tail[LeadingTails(tail, 0)..]
    ensures WellFormed(headText + tailText) && |head| - |headText| <= 3 && |tail| - |tailText| <= 3
  {
    CutLeavesWholeCharacters(head);
    hide WellFormedRange, StartsWellFormed;
    TrimmedSuffixIsWellFormed(stream, |stream| - |tail|);
    ConcatIsWellFormed(headText, tailText);
  }

  lemma HeadOfTwo(first: byte, second: byte, budget: nat)
    requires EscapedWidth(second) <= budget < EscapedWidth(first)
    ensures HeadOf([first, second], budget) == [second]
  {
    EmptyStream(budget, budget);
    hide HeadOf, TotalWidth, EscapedWidth;
    assert [] + [first] == [first] && [first] + [second] == [first, second] && [] + [second] == [second];
    HeadOfOneMore([], first, budget);
    HeadOfOneMore([first], second, budget);
  }

  lemma TailOfTwo(first: byte, second: byte, budget: nat)
    requires EscapedWidth(second) <= budget < EscapedWidth(first)
    ensures IsLongestFittingSuffix([first, second], budget, [second])
  {
    hide EscapedWidth;
    EmptyWidth();
    WidthOfOneMore([], second);
    WidthOfOneMore([], first);
    WidthOfOneMore([first], second);
    hide TotalWidth;
    assert [] + [second] == [second] && [] + [first] == [first] && [first] + [second] == [first, second];
    assert [first, second][1..] == [second] && [first, second][0..] == [first, second];
  }

  lemma WholeTextIsHeadAndRest(stream: bytes, headBudget: nat, tail: bytes, text: bytes, omitted: Option<nat>)
    requires |HeadOf(stream, headBudget)| + |tail| >= |stream| && Retained(stream, headBudget, tail, text, omitted)
    ensures var head := HeadOf(stream, headBudget);
            |head| <= |stream| && text == head + stream[|head|..] && omitted == None
  {
    hide HeadOf, NothingFitsLater, SeamFits, IsRetainedCut, WellFormedRange;
  }

  /** Two bytes of which only the second fits either budget, 01 a with a budget of 2 say:
      head and tail both hold the second and "meet" as it twice over. */
  lemma MisfitCorruptsWholeText(first: byte, second: byte, budget: nat, text: bytes, omitted: Option<nat>)
    requires EscapedWidth(second) <= budget < EscapedWidth(first)
    requires Retained([first, second], budget, [second], text, omitted)
    ensures HeadOf([first, second], budget) == [second] && IsLongestFittingSuffix([first, second], budget, [second])
    ensures text == [second, second] && omitted == None
    ensures text != [first, second] && !NothingFitsLater([first, second], budget)
  {
    assert first != second;
    hide HeadOf, TotalWidth, EscapedWidth, NothingFitsLater, IsLongestFittingSuffix, Retained;
    var stream := [first, second];
    HeadOfTwo(first, second, budget);
    TailOfTwo(first, second, budget);
    HeadIsPrefixExactlyWhenNothingFitsLater(stream, budget);
    assert stream[0] != [second][0];
    WholeTextIsHeadAndRest(stream, budget, [second], text, omitted);
    assert stream[1..] == [second];
  }

  /** The retained text of a well-formed stream is well-formed exactly when something counts
      as omitted or the seam fits. */
  lemma RetainedIsWellFormedExactly(
    stream: bytes, headBudget: nat, tail: bytes, text: bytes, omitted: Option<nat>)
    requires WellFormed(stream) && Retained(stream, headBudget, tail, text, omitted)
    ensures WellFormed(text) <==> omitted.Some? || SeamFits(stream, headBudget)
  {
    hide HeadOf, NothingFitsLater, SeamFits, CutAt, LeadingTails, WellFormedRange;
  }

  // ---------------------------------------------------------------------------
  // A well-formed stream whose whole text is not
  // ---------------------------------------------------------------------------

  /** At most five bytes, none of them escaped: they fit where a control byte does not. */
  predicate IsShortPlain(s: bytes) {
    0 < |s| <= 5 && forall i :: 0 <= i < |s| ==> EscapedWidth(s[i]) == 1
  }

  function BehindControl(s: bytes): bytes {
    [0x01] + s
  }

  lemma {:induction false} HeadBehindControl(s: bytes, n: nat)
    requires IsShortPlain(s) && n <= |s|
    ensures HeadOf(BehindControl(s[..n]), |s|) == s[..n] && TotalWidth(s[..n]) == n
  {
    hide HeadOf, TotalWidth;
    if n == 0 {
      EmptyStream(|s|, |s|);
      EmptyWidth();
      HeadOfOneMore([], 0x01, |s|);
      assert [] + [0x01] == [0x01] == BehindControl(s[..0]) && s[..0] == [];
    } else {
      HeadBehindControl(s, n - 1);
      var earlier := BehindControl(s[..n - 1]);
      assert BehindControl(s[..n]) == earlier + [s[n - 1]] && s[..n] == s[..n - 1] + [s[n - 1]];
      HeadOfOneMore(earlier, s[n - 1], |s|);
      WidthOfOneMore(s[..n - 1], s[n - 1]);
    }
  }

  lemma {:induction false} HeadAndTailBehindControl(s: bytes)
    requires IsShortPlain(s)
    ensures HeadOf(BehindControl(s), |s|) == s && IsLongestFittingSuffix(BehindControl(s), |s|, s)
  {
    HeadBehindControl(s, |s|);
    assert s[..|s|] == s;
    WidthBehindControl(s);
    hide HeadOf, TotalWidth, BehindControl;
  }

  lemma WidthBehindControl(s: bytes)
    ensures var stream := BehindControl(s);
            && |stream| == |s| + 1 && stream[1..] == s && stream[0..] == stream
            && TotalWidth(stream) == 6 + TotalWidth(s)
  {
    hide TotalWidth;
    WidthWithoutFirst(BehindControl(s));
  }

  lemma SeamBehindControl(s: bytes)
    requires IsShortPlain(s) && WellFormed(s) && IsTail(s[|s| - 1])
    ensures WellFormed(BehindControl(s)) && !SeamFits(BehindControl(s), |s|)
  {
    var stream, last := BehindControl(s), s[|s| - 1];
    HeadAndTailBehindControl(s);
    hide HeadOf;
    CutLeavesWholeCharacters(s);
    assert stream[|s|..] == [last] && LeadingTails([last], 0) == 1;
    assert s[|s|..] + [last][..1] == [last];
    assert IsChar([0x01], 0, 1);
    OneCharacter([0x01], 0, 1);
    ConcatIsWellFormed([0x01], s);
  }

  lemma {:induction false} TextBehindControl(s: bytes, tail: bytes, text: bytes, omitted: Option<nat>)
    requires IsShortPlain(s) && WellFormed(s) && IsTail(s[|s| - 1])
    requires IsLongestFittingSuffix(BehindControl(s), |s|, tail) && Retained(BehindControl(s), |s|, tail, text, omitted)
    ensures text == s + [s[|s| - 1]] && !WellFormed(text) && omitted == None
  {
    var stream := BehindControl(s);
    SeamBehindControl(s);
    HeadAndTailBehindControl(s);
    assert |stream| == |s| + 1 && stream[|s|..] == [s[|s| - 1]];
    hide HeadOf, TotalWidth, SeamFits, WellFormedRange, Retained, IsLongestFittingSuffix, BehindControl, IsShortPlain;
    LongestFittingSuffixIsUnique(stream, |s|, tail, s);
    WholeTextIsHeadAndRest(stream, |s|, s, text, omitted);
    RetainedIsWellFormedExactly(stream, |s|, s, text, omitted);
  }

  /** A budget of twice its length: nothing counts as omitted, the control byte is lost, and
      the last byte, half a character, comes twice. */
  method RetainBehindControl(s: bytes) returns (text: bytes, omitted: Option<nat>)
    requires IsShortPlain(s) && WellFormed(s) && IsTail(s[|s| - 1])
    ensures WellFormed(BehindControl(s))
    ensures text == s + [s[|s| - 1]] && !WellFormed(text) && omitted == None
  {
    SeamBehindControl(s);
    hide HeadOf, TotalWidth, IsTail, SeamFits, WellFormed, Retained, IsLongestFittingSuffix, BehindControl,
         IsShortPlain;
    var stream := BehindControl(s);
    var retainer := new TextRetainer(HeadTail, 2 * |s|);
    assert retainer.headBudget == |s| && retainer.tailBudget == |s|;
    var _, _ := retainer.Push(stream);
    assert retainer.stream == [] + stream == stream;
    text, omitted := retainer.Finish();
    TextBehindControl(s, retainer.tail, text, omitted);
  }

  /** SOH, a, and e with an acute accent twice, with a budget of ten. */
  method IllFormedWholeTextIsReached() returns (text: bytes, omitted: Option<nat>)
    ensures WellFormed(BehindControl([0x61, 0xC3, 0xA9, 0xC3, 0xA9]))
    ensures text == [0x61, 0xC3, 0xA9, 0xC3, 0xA9, 0xA9] && !WellFormed(text) && omitted == None
  {
    var s: bytes := [0x61, 0xC3, 0xA9, 0xC3, 0xA9];
    assert IsChar(s, 0, 1) && IsChar(s, 1, 2) && IsChar(s, 3, 2);
    assert WellFormedRange(s, 5, 5) && WellFormedRange(s, 3, 5) && WellFormedRange(s, 1, 5);
    text, omitted := RetainBehindControl(s);
  }
}
