/** The lossy UTF-8 sanitiser that every captured output stream passes through. */
module Sanitizer {
  import opened Utf8

  const REPLACEMENT: bytes := [0xEF, 0xBF, 0xBD]

  /** Whether a character of the grammar starts at `i`. */
  predicate StartsChar(s: bytes, i: nat)
    requires i < |s|
  {
    IsChar(s, i, SequenceLength(s[i]))
  }

  /** How many bytes the scan consumes at `i`. */
  function Consumed(s: bytes, i: nat): (n: nat)
    requires i < |s|
    ensures 0 < n <= |s| - i
  {
    if StartsChar(s, i) then SequenceLength(s[i]) else 1
  }

  /** What the scan emits at `i`. */
  function Emitted(s: bytes, i: nat): bytes
    requires i < |s|
  {
    if StartsChar(s, i) then s[i..i + Consumed(s, i)] else REPLACEMENT
  }

  /** The sanitised form of `s[i..]`. */
  function SanitizedFrom(s: bytes, i: nat): bytes
    requires i <= |s|
    decreases |s| - i
  {
    if i == |s| then [] else Emitted(s, i) + SanitizedFrom(s, i + Consumed(s, i))
  }

  function Sanitized(s: bytes): bytes {
    SanitizedFrom(s, 0)
  }

  /** What is well-formed from `i` on is decided by the character at `i`. */
  lemma NextCharacter(s: bytes, i: nat)
    requires i < |s|
    ensures WellFormedRange(s, i, |s|) <==> StartsChar(s, i) && WellFormedRange(s, i + Consumed(s, i), |s|)
  {
    if WellFormedRange(s, i, |s|) {
      var n :| 0 < n <= |s| - i && IsChar(s, i, n) && WellFormedRange(s, i + n, |s|);
      LeadFixesLength(s, i, n);
    }
  }

  /** The scan has emitted `out` for everything before `i`. */
  ghost predicate EmittedBefore(s: bytes, i: nat, out: bytes)
  {
    i <= |s| && Sanitized(s) == out + SanitizedFrom(s, i)
  }

  lemma EmitNext(s: bytes, i: nat, out: bytes, piece: bytes, next: nat)
    requires i < |s| && EmittedBefore(s, i, out)
    requires piece == Emitted(s, i) && next == i + Consumed(s, i)
    ensures EmittedBefore(s, next, out + piece)
  {
    assert out + (piece + SanitizedFrom(s, next)) == (out + piece) + SanitizedFrom(s, next);
  }

  lemma AsciiIsEmitted(s: bytes, i: nat)
    requires i < |s| && s[i] < 0x80
    ensures StartsChar(s, i) && Consumed(s, i) == 1 && Emitted(s, i) == [s[i]]
  {
    assert s[i..i + 1] == [s[i]];
  }

  /** Appends the next piece; `kept` tells whether it is a character of the input. */
  method EmitPiece(s: bytes, i: nat) returns (piece: bytes, next: nat, kept: bool)
    requires i < |s|
    ensures piece == Emitted(s, i) && next == i + Consumed(s, i) && kept == StartsChar(s, i)
  {
    if s[i] < 0x80 {
      AsciiIsEmitted(s, i);
      return [s[i]], i + 1, true;
    }
    kept := ValidUtf8Sequence(s, i);
    if kept {
      piece := s[i..i + SequenceLength(s[i])];
      next := i + SequenceLength(s[i]);
    } else {
      piece, next := REPLACEMENT, i + 1;
    }
  }

  method SanitizeUtf8(s: bytes, lostBefore: bool) returns (out: bytes, lost: bool)
    ensures out == Sanitized(s)
    ensures lost <==> lostBefore || !WellFormed(s)
  {
    out, lost := [], lostBefore;
    ghost var replaced := false;
    var i := 0;
    while i < |s|
      invariant i <= |s| && EmittedBefore(s, i, out)
      invariant lost <==> lostBefore || replaced
      invariant if replaced then !WellFormed(s) else WellFormed(s) <==> WellFormedRange(s, i, |s|)
    {
      NextCharacter(s, i);
      var piece, next, kept := EmitPiece(s, i);
      EmitNext(s, i, out, piece, next);
      if !kept {
        lost, replaced := true, true;
      }
      out, i := out + piece, next;
    }
  }

  lemma EmittedIsWellFormed(s: bytes, i: nat)
    requires i < |s|
    ensures WellFormed(Emitted(s, i))
  {
    if StartsChar(s, i) {
      CharIsWellFormed(s, i, Consumed(s, i));
    } else {
      CharIsWellFormed(REPLACEMENT, 0, 3);
      assert REPLACEMENT[0..3] == REPLACEMENT;
    }
  }

  lemma CharIsWellFormed(s: bytes, at: nat, n: nat)
    requires n > 0 && IsChar(s, at, n)
    ensures WellFormed(s[at..at + n])
  {
    assert WellFormedRange(s, at + n, at + n);
    assert WellFormedRange(s, at, at + n);
    SliceIsWellFormed(s, at, at + n);
  }

  lemma EmittedLength(s: bytes, i: nat)
    requires i < |s|
    ensures SanitizedFrom(s, i) == Emitted(s, i) + SanitizedFrom(s, i + Consumed(s, i))
    ensures |Emitted(s, i)| == if StartsChar(s, i) then Consumed(s, i) else Consumed(s, i) + 2
  {
  }

  /** A replacement is longer than the byte it stands for. */
  lemma {:induction false} SanitizingLengthens(s: bytes, i: nat)
    requires i <= |s|
    ensures |SanitizedFrom(s, i)| >= |s| - i
    ensures |SanitizedFrom(s, i)| == |s| - i <==> WellFormedRange(s, i, |s|)
    decreases |s| - i
  {
    if i < |s| {
      NextCharacter(s, i);
      EmittedLength(s, i);
      hide StartsChar, Consumed, Emitted, WellFormedRange;
      SanitizingLengthens(s, i + Consumed(s, i));
    }
  }

  /** The output is always well-formed. */
  lemma {:induction false} SanitizedIsWellFormed(s: bytes, i: nat)
    requires i <= |s|
    ensures WellFormed(SanitizedFrom(s, i))
    decreases |s| - i
  {
    if i < |s| {
      EmittedIsWellFormed(s, i);
      SanitizedIsWellFormed(s, i + Consumed(s, i));
      ConcatIsWellFormed(Emitted(s, i), SanitizedFrom(s, i + Consumed(s, i)));
    }
  }

  /** A well-formed beginning is copied as it stands. */
  lemma {:induction false} SanitizeKeepsPrefix(s: bytes, i: nat, k: nat)
    requires i <= k <= |s| && WellFormedRange(s, i, k)
    ensures SanitizedFrom(s, i) == s[i..k] + SanitizedFrom(s, k)
    decreases k - i
  {
    if i < k {
      var n :| 0 < n <= k - i && IsChar(s, i, n) && WellFormedRange(s, i + n, k);
      LeadFixesLength(s, i, n);
      SanitizeKeepsPrefix(s, i + n, k);
      assert n == Consumed(s, i) && Emitted(s, i) == s[i..i + n];
      JoinSlices(s, i, i + n, k, SanitizedFrom(s, k));
    }
  }

  lemma JoinSlices(s: bytes, i: nat, j: nat, k: nat, rest: bytes)
    requires i <= j <= k <= |s|
    ensures s[i..j] + (s[j..k] + rest) == s[i..k] + rest
  {
  }

  /** Identity exactly on well-formed text. */
  lemma SanitizeIsIdentityExactlyOnWellFormed(s: bytes)
    ensures Sanitized(s) == s <==> WellFormed(s)
  {
    SanitizedIsWellFormed(s, 0);
    if WellFormed(s) {
      SanitizeKeepsPrefix(s, 0, |s|);
    }
  }

  lemma SanitizeIsIdempotent(s: bytes)
    ensures Sanitized(Sanitized(s)) == Sanitized(s)
  {
    SanitizedIsWellFormed(s, 0);
    SanitizeIsIdentityExactlyOnWellFormed(Sanitized(s));
  }

  /** After a well-formed beginning, a byte that starts no character becomes one
      replacement character and scanning resumes at the very next byte. */
  lemma SanitizeReplacesOneByte(s: bytes, at: nat)
    requires at < |s| && WellFormedRange(s, 0, at) && forall n :: n > 0 ==> !IsChar(s, at, n)
    ensures Sanitized(s) == s[..at] + (REPLACEMENT + Sanitized(s[at + 1..]))
  {
    SanitizeKeepsPrefix(s, 0, at);
    assert !StartsChar(s, at);
    SanitizeSuffix(s, at + 1, 0);
    assert s[0..at] == s[..at];
  }

  lemma {:induction false} SanitizeSuffix(s: bytes, shift: nat, i: nat)
    requires shift + i <= |s|
    ensures SanitizedFrom(s[shift..], i) == SanitizedFrom(s, shift + i)
    decreases |s| - i
  {
    hide StartsChar, Consumed, Emitted;
    var t := s[shift..];
    if i < |t| {
      SameStep(s, shift, t, i);
      SanitizeSuffix(s, shift, i + Consumed(t, i));
    }
  }

  lemma SameStep(s: bytes, shift: nat, t: bytes, i: nat)
    requires shift <= |s| && t == s[shift..] && i < |t|
    ensures Consumed(t, i) == Consumed(s, shift + i) && Emitted(t, i) == Emitted(s, shift + i)
  {
    assert forall j :: 0 <= j < |t| ==> t[j] == s[shift + j];
    var n := Consumed(t, i);
    assert t[i..i + n] == s[shift + i..shift + i + n];
  }
}
