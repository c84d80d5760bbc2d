/** Counting and cutting text by code points, one per byte that is no tail byte. */
module CodePoints {
  import opened Utf8

  /** Code points that start in `s[lo..hi]`. */
  function Count(s: bytes, lo: nat, hi: nat): nat
    requires lo <= hi <= |s|
  {
    if lo == hi then 0 else Count(s, lo, hi - 1) + if IsTail(s[hi - 1]) then 0 else 1
  }

  function Length(s: bytes): nat {
    Count(s, 0, |s|)
  }

  lemma {:induction false} CountSplits(s: bytes, lo: nat, k: nat, hi: nat)
    requires lo <= k <= hi <= |s|
    ensures Count(s, lo, hi) == Count(s, lo, k) + Count(s, k, hi)
  {
    if k < hi {
      CountSplits(s, lo, k, hi - 1);
    }
  }

  lemma {:induction false} CountMoves(s: bytes, lo: nat, hi: nat, t: bytes, at: nat)
    requires lo <= hi <= |s| && at + (hi - lo) <= |t|
    requires forall i :: lo <= i < hi ==> s[i] == t[i - lo + at]
    ensures Count(s, lo, hi) == Count(t, at, at + (hi - lo))
  {
    if lo < hi {
      CountMoves(s, lo, hi - 1, t, at);
    }
  }

  lemma LengthOfConcat(a: bytes, b: bytes)
    ensures Length(a + b) == Length(a) + Length(b)
  {
    hide Count;
    CountSplits(a + b, 0, |a|, |a + b|);
    CountMoves(a, 0, |a|, a + b, 0);
    CountMoves(b, 0, |b|, a + b, |a|);
  }

  method CodePointLength(s: bytes) returns (count: nat)
    ensures count == Length(s)
  {
    count := 0;
    for i := 0 to |s|
      invariant count == Count(s, 0, i)
    {
      MaskMeansRange(s[i]);
      if !IsContinuation(s[i]) {
        count := count + 1;
      }
    }
  }

  function Min(a: nat, b: nat): nat {
    if a < b then a else b
  }

  /** Where the first `count` code points end. */
  ghost predicate EndsHead(s: bytes, count: nat, offset: nat)
  {
    && offset <= |s| && (offset < |s| ==> !IsTail(s[offset]))
    && Count(s, 0, offset) == Min(count, Length(s))
  }

  method ByteOffsetAfterCodePoints(s: bytes, count: nat) returns (offset: nat)
    ensures EndsHead(s, count, offset)
  {
    var seen := 0;
    for i := 0 to |s|
      invariant seen == Count(s, 0, i) <= count
    {
      MaskMeansRange(s[i]);
      if IsContinuation(s[i]) {
        continue;
      }
      if seen == count {
        CountSplits(s, 0, i, |s|);
        return i;
      }
      seen := seen + 1;
    }
    return |s|;
  }

  /** Where the last `count` code points begin. */
  ghost predicate StartsTail(s: bytes, count: nat, offset: nat)
  {
    && offset <= |s| && (0 < offset < |s| ==> !IsTail(s[offset]))
    && Count(s, offset, |s|) == Min(count, Length(s))
  }

  method ByteOffsetBeforeLastCodePoints(s: bytes, count: nat) returns (offset: nat)
    ensures StartsTail(s, count, offset)
  {
    if count == 0 {
      return |s|;
    }
    var seen, index := 0, |s|;
    while index > 0
      invariant 0 <= index <= |s|
      invariant seen == Count(s, index, |s|) < count
    {
      CountSplits(s, index - 1, index, |s|);
      assert Count(s, index - 1, index - 1) == 0;
      MaskMeansRange(s[index - 1]);
      if !IsContinuation(s[index - 1]) {
        seen := seen + 1;
        if seen == count {
          CountSplits(s, 0, index - 1, |s|);
          return index - 1;
        }
      }
      index := index - 1;
    }
    return 0;
  }

  /** The head has as many code points as asked for or as there are, and stays well-formed. */
  method CodePointHead(s: bytes, count: nat) returns (head: bytes)
    ensures head <= s && EndsHead(s, count, |head|) && Length(head) == Min(count, Length(s))
    ensures WellFormed(s) ==> WellFormed(head)
  {
    var offset := ByteOffsetAfterCodePoints(s, count);
    head := s[..offset];
    CountMoves(s, 0, offset, head, 0);
    hide Count, WellFormedRange;
    if WellFormed(s) {
      PrefixIsWellFormed(s, offset);
    }
  }

  lemma PrefixIsWellFormed(s: bytes, to: nat)
    requires to <= |s| && WellFormed(s) && (to < |s| ==> !IsTail(s[to]))
    ensures WellFormed(s[..to])
  {
    hide WellFormedRange;
    SplitAtBoundary(s, 0, to, |s|);
    SliceIsWellFormed(s, 0, to);
    assert s[0..to] == s[..to];
  }

  method CodePointTail(s: bytes, count: nat) returns (tail: bytes)
    ensures |tail| <= |s| && tail == s[|s| - |tail|..]
    ensures StartsTail(s, count, |s| - |tail|) && Length(tail) == Min(count, Length(s))
    ensures WellFormed(s) ==> WellFormed(tail)
  {
    var offset := ByteOffsetBeforeLastCodePoints(s, count);
    tail := s[offset..];
    CountMoves(s, offset, |s|, tail, 0);
    hide Count, WellFormedRange;
    if WellFormed(s) {
      SuffixIsWellFormed(s, offset);
    }
  }

  lemma SuffixIsWellFormed(s: bytes, from: nat)
    requires from <= |s| && WellFormed(s) && (0 < from < |s| ==> !IsTail(s[from]))
    ensures WellFormed(s[from..])
  {
    hide WellFormedRange;
    if 0 < from {
      SplitAtBoundary(s, 0, from, |s|);
    }
    SliceIsWellFormed(s, from, |s|);
    assert s[from..|s|] == s[from..];
  }
}
