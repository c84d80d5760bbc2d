/** `path_glob_match`: slash-separated segments, with `**` covering any number of them. */
module PathGlob {
  import opened Glob

  // ---------------------------------------------------------------------------
  // Segments
  // ---------------------------------------------------------------------------

  /** Position of the first slash at or after `start`, or the end of the path. */
  function NextSlash(path: string, start: nat): (end: nat)
    requires start <= |path|
    ensures start <= end <= |path| && (end < |path| ==> path[end] == '/')
    ensures forall i :: start <= i < end ==> path[i] != '/'
    decreases |path| - start
  {
    if start == |path| || path[start] == '/' then start else NextSlash(path, start + 1)
  }

  lemma {:induction false} NextSlashIs(path: string, start: nat, end: nat)
    requires start <= end <= |path| && (end < |path| ==> path[end] == '/')
    requires forall i :: start <= i < end ==> path[i] != '/'
    ensures NextSlash(path, start) == end
    decreases end - start
  {
    if start < end {
      NextSlashIs(path, start + 1, end);
    }
  }

  /** The non-empty pieces between slashes from `start` on, in order. */
  function SegmentsFrom(path: string, start: nat): (segments: seq<string>)
    requires start <= |path|
    decreases |path| - start
  {
    var end := NextSlash(path, start);
    var first := if end > start then [path[start..end]] else [];
    if end == |path| then first else first + SegmentsFrom(path, end + 1)
  }

  function Segments(path: string): (segments: seq<string>) {
    SegmentsFrom(path, 0)
  }

  lemma SegmentsStep(path: string, start: nat)
    requires start <= |path|
    ensures var end := NextSlash(path, start);
            var first := if end > start then [path[start..end]] else [];
            SegmentsFrom(path, start) == if end == |path| then first else first + SegmentsFrom(path, end + 1)
  {
  }

  lemma Reassociate(a: seq<string>, b: seq<string>, c: seq<string>)
    ensures a + (b + c) == (a + b) + c
  {
  }

  method SplitSegments(path: string) returns (segments: seq<string>)
    ensures segments == Segments(path)
  {
    hide SegmentsFrom, NextSlash;
    segments := [];
    var start := 0;
    while start <= |path|
      invariant 0 <= start <= |path|
      invariant Segments(path) == segments + SegmentsFrom(path, start)
      decreases |path| - start
    {
      var end := NextSlash(path, start);
      SegmentsStep(path, start);
      ghost var first := if end > start then [path[start..end]] else [];
      if end < |path| {
        Reassociate(segments, first, SegmentsFrom(path, end + 1));
      }
      if end > start {
        segments := segments + [path[start..end]];
      }
      if end == |path| {
        break;
      }
      start := end + 1;
    }
  }

  predicate IsSegment(s: string) {
    s != "" && '/' !in s
  }

  function JoinSegments(segments: seq<string>): string {
    if segments == [] then "" else segments[0] + "/" + JoinSegments(segments[1..])
  }

  /** Segments depend only on the characters that are left. */
  lemma {:induction false} SegmentsOfSuffix(path: string, shift: nat, suffix: string, start: nat)
    requires shift + |suffix| == |path| && path[shift..] == suffix && start <= |suffix|
    ensures SegmentsFrom(path, shift + start) == SegmentsFrom(suffix, start)
    decreases |suffix| - start
  {
    assert forall i :: shift <= i < |path| ==> path[i] == suffix[i - shift];
    var end := NextSlash(suffix, start);
    NextSlashIs(path, shift + start, shift + end);
    assert path[shift + start..shift + end] == suffix[start..end];
    SegmentsStep(suffix, start);
    SegmentsStep(path, shift + start);
    hide SegmentsFrom, NextSlash;
    if end < |suffix| {
      SegmentsOfSuffix(path, shift, suffix, end + 1);
    }
  }

  /** Slashes only separate: splitting distributes over them. */
  lemma {:induction false} SegmentsOfConcat(left: string, right: string, path: string, start: nat)
    requires path == left + "/" + right && start <= |left|
    ensures SegmentsFrom(path, start) == SegmentsFrom(left, start) + Segments(right)
    decreases |left| - start
  {
    hide NextSlash, SegmentsFrom;
    var end := NextSlash(left, start);
    FirstSegmentOfConcat(left, right, path, start);
    SegmentsStep(left, start);
    SegmentsStep(path, start);
    var first := if end > start then [left[start..end]] else [];
    if end < |left| {
      SegmentsOfConcat(left, right, path, end + 1);
      Reassociate(first, SegmentsFrom(left, end + 1), Segments(right));
    } else {
      assert path[|left| + 1..] == right;
      SegmentsOfSuffix(path, |left| + 1, right, 0);
    }
  }

  lemma {:induction false} FirstSegmentOfConcat(left: string, right: string, path: string, start: nat)
    requires path == left + "/" + right && start <= |left|
    ensures var end := NextSlash(left, start);
            NextSlash(path, start) == end < |path| && path[start..end] == left[start..end]
  {
    hide NextSlash;
    assert path[|left|] == '/' && forall i :: 0 <= i < |left| ==> left[i] == path[i];
    NextSlashIs(path, start, NextSlash(left, start));
  }

  /** Leading and trailing slashes never change the segments. */
  lemma LeadingAndTrailingSlashes(path: string)
    ensures Segments("/" + path) == Segments(path) == Segments(path + "/")
  {
    SegmentsOfConcat("", path, "/" + path, 0);
    SegmentsOfConcat(path, "", path + "/", 0);
  }

  /** A doubled slash separates like a single one. */
  lemma RepeatedSlashes(left: string, right: string)
    ensures Segments(left + "//" + right) == Segments(left + "/" + right)
  {
    LeadingAndTrailingSlashes(right);
    SegmentsOfConcat(left, right, left + "/" + right, 0);
    SegmentsOfConcat(left, "/" + right, left + "//" + right, 0);
  }

  lemma {:induction false} SegmentsAreSegments(path: string, start: nat)
    requires start <= |path|
    ensures forall s :: s in SegmentsFrom(path, start) ==> IsSegment(s) && forall c :: c in s ==> c in path
    decreases |path| - start
  {
    var end := NextSlash(path, start);
    if end < |path| {
      SegmentsAreSegments(path, end + 1);
    }
  }

  /** Splitting undoes joining. */
  lemma {:induction false} SplitUndoesJoin(segments: seq<string>)
    requires forall s :: s in segments ==> IsSegment(s)
    ensures Segments(JoinSegments(segments)) == segments
  {
    if segments != [] {
      var first := segments[0];
      SegmentsOfConcat(first, JoinSegments(segments[1..]), JoinSegments(segments), 0);
      assert IsSegment(first) && forall i :: 0 <= i < |first| ==> first[i] in first;
      NextSlashIs(first, 0, |first|);
      assert first[0..|first|] == first;
      SplitUndoesJoin(segments[1..]);
    }
  }

  // ---------------------------------------------------------------------------
  // `**` across segments
  // ---------------------------------------------------------------------------

  type FlatSemantics = (string, string) -> bool

  /** Pattern segment i of `pattern[pi..]` covers `text[cuts[i]..cuts[i + 1]]`: any
      stretch for `**`, exactly one flat-matched segment otherwise. */
  ghost predicate Covers(flat: FlatSemantics, pattern: seq<string>, pi: nat, text: seq<string>, ti: nat, cuts: seq<nat>)
    requires pi <= |pattern|
  {
    && |cuts| == |pattern| - pi + 1 && cuts[0] == ti && cuts[|pattern| - pi] == |text|
    && (forall i :: 0 <= i < |cuts| ==> cuts[i] <= |text|)
    && forall i {:trigger cuts[i]} :: 0 <= i < |pattern| - pi ==>
         if pattern[pi + i] == "**" then cuts[i] <= cuts[i + 1]
         else cuts[i + 1] == cuts[i] + 1 && flat(pattern[pi + i], text[cuts[i]])
  }

  ghost predicate CoveredFrom(flat: FlatSemantics, pattern: seq<string>, pi: nat, text: seq<string>, ti: nat)
    requires pi <= |pattern|
  {
    exists cuts :: Covers(flat, pattern, pi, text, ti, cuts)
  }

  /** The declarative meaning of a path pattern. */
  ghost predicate PathMatches(flat: FlatSemantics, pattern: seq<string>, text: seq<string>) {
    CoveredFrom(flat, pattern, 0, text, 0)
  }

  /** Some tail of `text` from `ti` on is covered. */
  ghost predicate CoveredLater(flat: FlatSemantics, pattern: seq<string>, pi: nat, text: seq<string>, ti: nat)
    requires pi <= |pattern|
  {
    exists k :: ti <= k <= |text| && CoveredFrom(flat, pattern, pi, text, k)
  }

  lemma NothingLeft(flat: FlatSemantics, pattern: seq<string>, text: seq<string>, ti: nat)
    ensures CoveredFrom(flat, pattern, |pattern|, text, ti) <==> ti == |text|
  {
    if ti == |text| {
      assert Covers(flat, pattern, |pattern|, text, ti, [ti]);
    }
  }

  lemma DropFirst(flat: FlatSemantics, pattern: seq<string>, pi: nat, text: seq<string>, ti: nat, cuts: seq<nat>)
    requires pi < |pattern| && Covers(flat, pattern, pi, text, ti, cuts)
    ensures ti <= cuts[1] <= |text| && CoveredFrom(flat, pattern, pi + 1, text, cuts[1])
    ensures pattern[pi] != "**" ==> ti < |text| && cuts[1] == ti + 1 && flat(pattern[pi], text[ti])
  {
    assert cuts[0] == ti;
    var tail := cuts[1..];
    forall i | 0 <= i < |pattern| - pi - 1
      ensures if pattern[pi + 1 + i] == "**" then tail[i] <= tail[i + 1]
              else tail[i + 1] == tail[i] + 1 && flat(pattern[pi + 1 + i], text[tail[i]])
    {
      assert cuts[i + 1] == tail[i];
    }
    assert Covers(flat, pattern, pi + 1, text, cuts[1], tail);
  }

  lemma AddFirst(flat: FlatSemantics, pattern: seq<string>, pi: nat, text: seq<string>, ti: nat, next: nat)
    requires pi < |pattern| && ti <= next <= |text| && CoveredFrom(flat, pattern, pi + 1, text, next)
    requires pattern[pi] == "**" || (next == ti + 1 && flat(pattern[pi], text[ti]))
    ensures CoveredFrom(flat, pattern, pi, text, ti)
  {
    hide Covers;
    var tail :| Covers(flat, pattern, pi + 1, text, next, tail);
    AddCut(flat, pattern, pi, text, ti, next, tail);
  }

  lemma {:induction false} AddCut(
    flat: FlatSemantics, pattern: seq<string>, pi: nat, text: seq<string>, ti: nat, next: nat, tail: seq<nat>)
    requires pi < |pattern| && ti <= next <= |text| && Covers(flat, pattern, pi + 1, text, next, tail)
    requires pattern[pi] == "**" || (next == ti + 1 && flat(pattern[pi], text[ti]))
    ensures Covers(flat, pattern, pi, text, ti, [ti] + tail)
  {
    var cuts := [ti] + tail;
    assert forall i :: 0 < i < |cuts| ==> cuts[i] == tail[i - 1];
    forall i | 0 <= i < |pattern| - pi
      ensures if pattern[pi + i] == "**" then cuts[i] <= cuts[i + 1]
              else cuts[i + 1] == cuts[i] + 1 && flat(pattern[pi + i], text[cuts[i]])
    {
      if i > 0 {
        assert cuts[i] == tail[i - 1];
      }
    }
  }

  /** The recursion's step: what the first pattern segment may cover. */
  lemma CoveredStep(flat: FlatSemantics, pattern: seq<string>, pi: nat, text: seq<string>, ti: nat)
    requires pi < |pattern| && ti <= |text|
    ensures CoveredFrom(flat, pattern, pi, text, ti) <==>
            if pattern[pi] == "**" then CoveredLater(flat, pattern, pi + 1, text, ti)
            else ti < |text| && flat(pattern[pi], text[ti]) && CoveredFrom(flat, pattern, pi + 1, text, ti + 1)
  {
    if CoveredFrom(flat, pattern, pi, text, ti) {
      var cuts :| Covers(flat, pattern, pi, text, ti, cuts);
      DropFirst(flat, pattern, pi, text, ti, cuts);
    }
    if pattern[pi] == "**" {
      if CoveredLater(flat, pattern, pi + 1, text, ti) {
        var k :| ti <= k <= |text| && CoveredFrom(flat, pattern, pi + 1, text, k);
        AddFirst(flat, pattern, pi, text, ti, k);
      }
    } else if ti < |text| && flat(pattern[pi], text[ti]) && CoveredFrom(flat, pattern, pi + 1, text, ti + 1) {
      AddFirst(flat, pattern, pi, text, ti, ti + 1);
    }
  }

  /** The recursion over segments, each decided by the flat loop. */
  ghost predicate SegmentsMatch(pattern: seq<string>, pi: nat, text: seq<string>, ti: nat)
    requires pi <= |pattern|
    decreases |pattern| - pi, 0
  {
    if pi == |pattern| then ti == |text|
    else if pattern[pi] == "**" then SegmentsMatchLater(pattern, pi + 1, text, ti)
    else ti < |text| && LoopMatches(pattern[pi], text[ti]) && SegmentsMatch(pattern, pi + 1, text, ti + 1)
  }

  ghost predicate SegmentsMatchLater(pattern: seq<string>, pi: nat, text: seq<string>, ti: nat)
    requires pi <= |pattern|
    decreases |pattern| - pi, 1
  {
    exists k :: ti <= k <= |text| && SegmentsMatch(pattern, pi, text, k)
  }

  lemma {:induction false} RecursionMeansCoverage(pattern: seq<string>, pi: nat, text: seq<string>, ti: nat)
    requires pi <= |pattern| && ti <= |text|
    ensures SegmentsMatch(pattern, pi, text, ti) <==> CoveredFrom(LoopMatches, pattern, pi, text, ti)
    decreases |pattern| - pi
  {
    if pi == |pattern| {
      NothingLeft(LoopMatches, pattern, text, ti);
    } else {
      var next := pi + 1;
      CoveredStep(LoopMatches, pattern, pi, text, ti);
      if ti < |text| {
        RecursionMeansCoverage(pattern, next, text, ti + 1);
      }
      forall k | ti <= k <= |text|
        ensures SegmentsMatch(pattern, next, text, k) <==> CoveredFrom(LoopMatches, pattern, next, text, k)
      {
        RecursionMeansCoverage(pattern, next, text, k);
      }
      assert SegmentsMatchLater(pattern, next, text, ti) <==> CoveredLater(LoopMatches, pattern, next, text, ti);
    }
  }

  method MatchSegments(pattern: seq<string>, text: seq<string>, pi: nat, ti: nat) returns (matched: bool)
    requires pi <= |pattern| && ti <= |text|
    ensures matched <==> SegmentsMatch(pattern, pi, text, ti)
    decreases |pattern| - pi
  {
    if pi == |pattern| {
      return ti == |text|;
    }
    if pattern[pi] == "**" {
      matched := MatchSegments(pattern, text, pi + 1, ti);
      if matched {
        return;
      }
      ghost var next := pi + 1;
      for k := ti to |text|
        invariant forall n :: ti <= n <= k ==> !SegmentsMatch(pattern, next, text, n)
      {
        matched := MatchSegments(pattern, text, pi + 1, k + 1);
        if matched {
          return;
        }
      }
      assert !SegmentsMatchLater(pattern, next, text, ti);
      return false;
    }
    if ti == |text| {
      return false;
    }
    matched := FlatMatch(pattern[pi], text[ti]);
    if matched {
      matched := MatchSegments(pattern, text, pi + 1, ti + 1);
    }
  }

  /** The loop's flat semantics decides the same paths as the documented one,
      in one direction always and in both when no text segment holds a `*`. */
  lemma PathSemanticsAgree(pattern: seq<string>, text: seq<string>)
    ensures PathMatches(LoopMatches, pattern, text) ==> PathMatches(Matches, pattern, text)
    ensures (forall s :: s in text ==> '*' !in s) ==>
              (PathMatches(LoopMatches, pattern, text) <==> PathMatches(Matches, pattern, text))
  {
    if PathMatches(LoopMatches, pattern, text) {
      var cuts :| Covers(LoopMatches, pattern, 0, text, 0, cuts);
      forall i | 0 <= i < |pattern| && pattern[i] != "**" && cuts[i] < |text| && LoopMatches(pattern[i], text[cuts[i]])
        ensures Matches(pattern[i], text[cuts[i]])
      {
        LoopSound(pattern[i], 0, text[cuts[i]], 0);
      }
      assert Covers(Matches, pattern, 0, text, 0, cuts);
    }
    if (forall s :: s in text ==> '*' !in s) && PathMatches(Matches, pattern, text) {
      var cuts :| Covers(Matches, pattern, 0, text, 0, cuts);
      forall i | 0 <= i < |pattern| && pattern[i] != "**" && cuts[i] < |text| && Matches(pattern[i], text[cuts[i]])
        ensures LoopMatches(pattern[i], text[cuts[i]])
      {
        LoopComplete(pattern[i], 0, text[cuts[i]], 0);
      }
      assert Covers(LoopMatches, pattern, 0, text, 0, cuts);
    }
  }

  // ---------------------------------------------------------------------------
  // The paths on which both semantics agree
  // ---------------------------------------------------------------------------

  /** A character that is no slash is found again in some segment. */
  lemma {:induction false} FindInSegment(path: string, start: nat, at: nat) returns (j: nat)
    requires start <= at < |path| && path[at] != '/'
    ensures j < |SegmentsFrom(path, start)| && path[at] in SegmentsFrom(path, start)[j]
    decreases |path| - start
  {
    var end := NextSlash(path, start);
    SegmentsStep(path, start);
    hide SegmentsFrom, NextSlash;
    if at < end {
      j := 0;
      CharIsInSlice(path, start, end, at);
    } else {
      j := FindInSegment(path, end + 1, at);
      if end > start {
        j := j + 1;
      }
    }
  }

  lemma CharIsInSlice(path: string, start: nat, end: nat, at: nat)
    requires start <= at < end <= |path|
    ensures path[at] in path[start..end]
  {
    assert path[start..end][at - start] == path[at];
  }

  /** Without `**` each segment covers its counterpart. */
  lemma SegmentBySegment(flat: FlatSemantics, pattern: seq<string>, text: seq<string>)
    requires |pattern| == |text| && "**" !in pattern
    ensures PathMatches(flat, pattern, text) <==> forall i :: 0 <= i < |text| ==> flat(pattern[i], text[i])
  {
    if PathMatches(flat, pattern, text) {
      var cuts :| Covers(flat, pattern, 0, text, 0, cuts);
      CutsCount(flat, pattern, text, cuts, |text|);
    }
    if forall i :: 0 <= i < |text| ==> flat(pattern[i], text[i]) {
      var cuts: seq<nat> := seq(|text| + 1, i requires 0 <= i => i);
      assert forall i :: 0 <= i < |pattern| ==> pattern[0 + i] == pattern[i] != "**";
      assert Covers(flat, pattern, 0, text, 0, cuts);
    }
  }

  lemma {:induction false} CutsCount(
    flat: FlatSemantics, pattern: seq<string>, text: seq<string>, cuts: seq<nat>, n: nat)
    requires |pattern| == |text| && n <= |text| && Covers(flat, pattern, 0, text, 0, cuts)
    requires forall i :: 0 <= i < |pattern| ==> pattern[i] != "**"
    ensures |cuts| == |text| + 1 && cuts[n] == n && forall i :: 0 <= i < n ==> flat(pattern[i], text[i])
  {
    assert |cuts| == |text| + 1 && cuts[0] == 0;
    hide Covers;
    if n > 0 {
      CutsCount(flat, pattern, text, cuts, n - 1);
      CutStep(flat, pattern, text, cuts, n - 1);
    }
  }

  lemma CutStep(flat: FlatSemantics, pattern: seq<string>, text: seq<string>, cuts: seq<nat>, i: nat)
    requires Covers(flat, pattern, 0, text, 0, cuts) && i < |pattern| && pattern[i] != "**"
    ensures |cuts| == |pattern| + 1 && cuts[i + 1] == cuts[i] + 1 <= |text| && flat(pattern[i], text[cuts[i]])
  {
    assert pattern[0 + i] == pattern[i] && cuts[i + 1] <= |text|;
  }

  /** `?` for every character, but for a star before character `at` of segment `j`. */
  function DefeatingPattern(text: seq<string>, j: nat, at: nat): (pattern: seq<string>)
    ensures |pattern| == |text|
  {
    seq(|text|, i requires 0 <= i < |text| =>
      if i == j then seq(|text[i]| + 1, k => if k == at then '*' else '?') else seq(|text[i]|, k => '?'))
  }

  lemma DefeatingSegments(text: seq<string>, j: nat, at: nat)
    requires j < |text| && at < |text[j]| && forall s :: s in text ==> IsSegment(s)
    ensures "**" !in DefeatingPattern(text, j, at)
    ensures forall s :: s in DefeatingPattern(text, j, at) ==> IsSegment(s)
  {
    var pattern := DefeatingPattern(text, j, at);
    forall i | 0 <= i < |pattern| ensures IsSegment(pattern[i]) && pattern[i] != "**" {
      assert IsSegment(text[i]);
      if i == j {
        assert pattern[i][|text[i]|] == '?';
      } else {
        assert pattern[i][0] == '?';
      }
    }
  }

  lemma {:induction false} DefeatsPathLoop(text: seq<string>, j: nat, at: nat)
    requires j < |text| && at < |text[j]| && text[j][at] == '*' && forall s :: s in text ==> IsSegment(s)
    ensures PathMatches(Matches, DefeatingPattern(text, j, at), text)
    ensures !PathMatches(LoopMatches, DefeatingPattern(text, j, at), text)
  {
    var pattern := DefeatingPattern(text, j, at);
    DefeatingSegments(text, j, at);
    StarInTextDefeatsLoop(pattern[j], text[j], at, 0);
    forall i | 0 <= i < |text| ensures Matches(pattern[i], text[i]) {
      if i != j {
        WildcardsFixLength(pattern[i], 0, text[i], 0);
      }
    }
    assert !LoopMatches(pattern[j], text[j]);
    SegmentBySegment(Matches, pattern, text);
    SegmentBySegment(LoopMatches, pattern, text);
  }

  ghost predicate PathsAgree(pattern: string, text: string) {
    PathMatches(LoopMatches, Segments(pattern), Segments(text))
    <==> PathMatches(Matches, Segments(pattern), Segments(text))
  }

  /** The exact paths on which the matcher implements the documented semantics. */
  lemma PathsAgreeExactlyOnStarFreeTexts(text: string)
    ensures (forall pattern :: PathsAgree(pattern, text)) <==> '*' !in text
  {
    var segments := Segments(text);
    SegmentsAreSegments(text, 0);
    hide SegmentsFrom, LoopMatches, Matches, PathMatches;
    if '*' !in text {
      forall pattern ensures PathsAgree(pattern, text) {
        PathSemanticsAgree(Segments(pattern), segments);
      }
    } else {
      var i :| 0 <= i < |text| && text[i] == '*';
      var j := FindInSegment(text, 0, i);
      var at :| 0 <= at < |segments[j]| && segments[j][at] == '*';
      var pattern := DefeatingPattern(segments, j, at);
      DefeatingSegments(segments, j, at);
      DefeatsPathLoop(segments, j, at);
      SplitUndoesJoin(pattern);
      assert !PathsAgree(JoinSegments(pattern), text);
    }
  }

  method PathGlobMatch(pattern: string, text: string) returns (matched: bool)
    ensures matched <==> PathMatches(LoopMatches, Segments(pattern), Segments(text))
    ensures matched ==> PathMatches(Matches, Segments(pattern), Segments(text))
    ensures '*' !in text ==> (matched <==> PathMatches(Matches, Segments(pattern), Segments(text)))
  {
    var patternSegments := SplitSegments(pattern);
    var textSegments := SplitSegments(text);
    matched := MatchSegments(patternSegments, textSegments, 0, 0);
    RecursionMeansCoverage(patternSegments, 0, textSegments, 0);
    PathSemanticsAgree(patternSegments, textSegments);
    SegmentsAreSegments(text, 0);
  }
}
