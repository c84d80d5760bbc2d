/** UTF-8 well-formedness (section 4 of RFC 3629), its validator and the trimming of cuts. */
module Utf8 {
  type byte = bv8
  type bytes = seq<byte>

  // ---------------------------------------------------------------------------
  // The grammar of RFC 3629
  // ---------------------------------------------------------------------------

  predicate IsTail(b: byte) {
    0x80 <= b <= 0xBF
  }

  /** UTF8-char: the `n` bytes of `s` at `at` encode one character. */
  predicate IsChar(s: bytes, at: nat, n: nat)
  {
    && at + n <= |s|
    && match n
       case 1 => s[at] <= 0x7F
       case 2 => 0xC2 <= s[at] <= 0xDF && IsTail(s[at + 1])
       case 3 =>
         && IsTail(s[at + 2])
         && (|| (s[at] == 0xE0 && 0xA0 <= s[at + 1] <= 0xBF)
             || (0xE1 <= s[at] <= 0xEC && IsTail(s[at + 1]))
             || (s[at] == 0xED && 0x80 <= s[at + 1] <= 0x9F)
             || (0xEE <= s[at] <= 0xEF && IsTail(s[at + 1])))
       case 4 =>
         && IsTail(s[at + 2]) && IsTail(s[at + 3])
         && (|| (s[at] == 0xF0 && 0x90 <= s[at + 1] <= 0xBF)
             || (0xF1 <= s[at] <= 0xF3 && IsTail(s[at + 1]))
             || (s[at] == 0xF4 && 0x80 <= s[at + 1] <= 0x8F))
       case _ => false
  }

  /** UTF8-octets: `s[lo..hi]` is a sequence of characters. */
  ghost predicate WellFormedRange(s: bytes, lo: nat, hi: nat)
    requires lo <= hi <= |s|
    decreases hi - lo
  {
    lo == hi || exists n :: 0 < n <= hi - lo && IsChar(s, lo, n) && WellFormedRange(s, lo + n, hi)
  }

  ghost predicate WellFormed(s: bytes) {
    WellFormedRange(s, 0, |s|)
  }

  // ---------------------------------------------------------------------------
  // Theory of well-formed ranges
  // ---------------------------------------------------------------------------

  /** Every place that does not hold a tail byte is a character boundary. */
  lemma {:induction false} SplitAtBoundary(s: bytes, lo: nat, k: nat, hi: nat)
    requires lo <= k <= hi <= |s| && WellFormedRange(s, lo, hi)
    requires k == hi || !IsTail(s[k])
    ensures WellFormedRange(s, lo, k) && WellFormedRange(s, k, hi)
    decreases hi - lo
  {
    if lo < k {
      var n :| 0 < n <= hi - lo && IsChar(s, lo, n) && WellFormedRange(s, lo + n, hi);
      SplitAtBoundary(s, lo + n, k, hi);
    }
  }

  lemma {:induction false} JoinRanges(s: bytes, lo: nat, k: nat, hi: nat)
    requires lo <= k <= hi <= |s| && WellFormedRange(s, lo, k) && WellFormedRange(s, k, hi)
    ensures WellFormedRange(s, lo, hi)
    decreases k - lo
  {
    if lo < k {
      var n :| 0 < n <= k - lo && IsChar(s, lo, n) && WellFormedRange(s, lo + n, k);
      JoinRanges(s, lo + n, k, hi);
    }
  }

  /** Well-formedness of a range depends on its bytes alone. */
  lemma {:induction false} MoveRange(s: bytes, lo: nat, hi: nat, t: bytes, at: nat)
    requires lo <= hi <= |s| && at + (hi - lo) <= |t| && WellFormedRange(s, lo, hi)
    requires forall i :: lo <= i < hi ==> s[i] == t[i - lo + at]
    ensures WellFormedRange(t, at, at + (hi - lo))
    decreases hi - lo
  {
    if lo < hi {
      var n :| 0 < n <= hi - lo && IsChar(s, lo, n) && WellFormedRange(s, lo + n, hi);
      assert IsChar(t, at, n);
      MoveRange(s, lo + n, hi, t, at + n);
    }
  }

  lemma SliceIsWellFormed(s: bytes, lo: nat, hi: nat)
    requires lo <= hi <= |s|
    ensures WellFormed(s[lo..hi]) <==> WellFormedRange(s, lo, hi)
  {
    if WellFormedRange(s, lo, hi) {
      MoveRange(s, lo, hi, s[lo..hi], 0);
    }
    if WellFormed(s[lo..hi]) {
      MoveRange(s[lo..hi], 0, hi - lo, s, lo);
    }
  }

  /** Well-formed text behind well-formed text starts where the latter ends. */
  lemma {:induction false} DropWholeCharacters(s: bytes, lo: nat, k: nat, hi: nat)
    requires lo <= k <= hi <= |s| && WellFormedRange(s, lo, k) && WellFormedRange(s, lo, hi)
    ensures WellFormedRange(s, k, hi)
    decreases k - lo
  {
    if lo < k {
      var m :| 0 < m <= k - lo && IsChar(s, lo, m) && WellFormedRange(s, lo + m, k);
      var n :| 0 < n <= hi - lo && IsChar(s, lo, n) && WellFormedRange(s, lo + n, hi);
      assert m == n;
      DropWholeCharacters(s, lo + m, k, hi);
    }
  }

  lemma ConcatIsWellFormed(a: bytes, b: bytes)
    requires WellFormed(a) && WellFormed(b)
    ensures WellFormed(a + b)
  {
    MoveRange(a, 0, |a|, a + b, 0);
    MoveRange(b, 0, |b|, a + b, |a|);
    JoinRanges(a + b, 0, |a|, |a + b|);
  }

  /** In well-formed text at most three tail bytes follow each other. */
  lemma {:induction false} TailRunsAreShort(s: bytes, lo: nat, at: nat, hi: nat)
    requires lo <= at && at + 4 <= hi <= |s| && WellFormedRange(s, lo, hi)
    ensures exists i :: at <= i < at + 4 && !IsTail(s[i])
    decreases hi - lo
  {
    var n :| 0 < n <= hi - lo && IsChar(s, lo, n) && WellFormedRange(s, lo + n, hi);
    if lo == at {
      assert !IsTail(s[at]);
    } else if lo + n <= at {
      TailRunsAreShort(s, lo + n, at, hi);
    } else {
      var m :| 0 < m <= hi - (lo + n) && IsChar(s, lo + n, m) && WellFormedRange(s, lo + n + m, hi);
      assert !IsTail(s[lo + n]);
    }
  }

  // ---------------------------------------------------------------------------
  // The validator
  // ---------------------------------------------------------------------------

  function SequenceLength(lead: byte): nat {
    if lead < 0x80 then 1
    else if lead & 0xE0 == 0xC0 then 2
    else if lead & 0xF0 == 0xE0 then 3
    else if lead & 0xF8 == 0xF0 then 4
    else 0
  }

  predicate IsContinuation(b: byte) {
    b & 0xC0 == 0x80
  }

  lemma MaskMeansRange(b: byte)
    ensures IsContinuation(b) <==> IsTail(b)
    ensures SequenceLength(b) ==
            if b < 0x80 then 1 else if b < 0xC0 then 0 else if b < 0xE0 then 2
            else if b < 0xF0 then 3 else if b < 0xF8 then 4 else 0
  {
  }

  /** `valid_utf8_sequence`: exactly the characters of the grammar. */
  method ValidUtf8Sequence(s: bytes, at: nat) returns (valid: bool)
    requires at < |s|
    ensures valid <==> IsChar(s, at, SequenceLength(s[at]))
  {
    var lead := s[at];
    MaskMeansRange(lead);
    var length := SequenceLength(lead);
    if length == 0 || at + length > |s| {
      return false;
    }
    for i := 1 to length
      invariant forall j :: at < j < at + i ==> IsTail(s[j])
    {
      MaskMeansRange(s[at + i]);
      if !IsContinuation(s[at + i]) {
        return false;
      }
    }
    if length == 2 {
      return lead >= 0xC2;
    }
    if length == 3 {
      var second := s[at + 1];
      if lead == 0xE0 { return second >= 0xA0; }
      if lead == 0xED { return second < 0xA0; }
    }
    if length == 4 {
      var second := s[at + 1];
      if lead == 0xF0 { return second >= 0x90; }
      if lead == 0xF4 { return second < 0x90; }
      return lead <= 0xF3;
    }
    return true;
  }

  /** The lead byte fixes the length, so looking at that one length loses nothing. */
  lemma LeadFixesLength(s: bytes, at: nat, n: nat)
    requires at < |s| && IsChar(s, at, n)
    ensures n == SequenceLength(s[at])
  {
    MaskMeansRange(s[at]);
  }

  // ---------------------------------------------------------------------------
  // Trimming a cut text
  // ---------------------------------------------------------------------------

  /** Number of tail bytes at the start of `s[i..]`. */
  function LeadingTails(s: bytes, i: nat): (n: nat)
    requires i <= |s|
    ensures i + n <= |s| && (forall j :: i <= j < i + n ==> IsTail(s[j]))
    ensures i + n < |s| ==> !IsTail(s[i + n])
    decreases |s| - i
  {
    if i == |s| || !IsTail(s[i]) then 0 else 1 + LeadingTails(s, i + 1)
  }

  /** `trim_to_utf8_start`: drops the tail bytes a cut left behind. */
  method TrimToUtf8Start(s: bytes) returns (trimmed: bytes)
    ensures trimmed == s[LeadingTails(s, 0)..]
  {
    var i := 0;
    while i < |s| && IsContinuation(s[i])
      invariant 0 <= i <= |s|
      invariant LeadingTails(s, 0) == i + LeadingTails(s, i)
    {
      MaskMeansRange(s[i]);
      i := i + 1;
    }
    if i < |s| {
      MaskMeansRange(s[i]);
    }
    trimmed := s[i..];
  }

  lemma FewLeadingTails(s: bytes, cut: nat)
    requires cut <= |s| && WellFormed(s)
    ensures LeadingTails(s[cut..], 0) <= 3
  {
    if |s| - cut >= 4 {
      TailRunsAreShort(s, 0, cut, |s|);
      var i :| cut <= i < cut + 4 && !IsTail(s[i]);
      assert s[cut..][i - cut] == s[i];
    }
  }

  /** Any cut of well-formed text, trimmed of at most three bytes, is well-formed again. */
  lemma TrimmedSuffixIsWellFormed(s: bytes, cut: nat)
    requires cut <= |s| && WellFormed(s)
    ensures LeadingTails(s[cut..], 0) <= 3 && WellFormed(s[cut..][LeadingTails(s[cut..], 0)..])
  {
    FewLeadingTails(s, cut);
    var k := cut + LeadingTails(s[cut..], 0);
    assert k < |s| ==> s[k] == s[cut..][k - cut];
    SplitAtBoundary(s, 0, k, |s|);
    SliceIsWellFormed(s, k, |s|);
    assert s[cut..][k - cut..] == s[k..|s|];
  }
}
