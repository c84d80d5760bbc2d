/** The terminal ring: readers consume what the child wrote, in order, and are
    told when something was evicted before they came. */
module PtyRing {
  import opened Utf8
  import opened Sanitizer

  /** One read: bytes `lo..hi` of everything ever appended, and its flag. */
  datatype Slice = Slice(lo: nat, hi: nat, truncated: bool)

  /** Where the latest read ended. */
  ghost function ReadUpTo(slices: seq<Slice>): nat {
    if slices == [] then 0 else slices[|slices| - 1].hi
  }

  /** Reads are disjoint and in order; a read is flagged exactly when bytes were
      skipped between the previous read and it. */
  ghost predicate InOrder(slices: seq<Slice>, start: nat) {
    slices != [] ==>
      var last, earlier := slices[|slices| - 1], slices[..|slices| - 1];
      && ReadUpTo(earlier) <= last.lo <= last.hi <= start
      && (last.truncated <==> ReadUpTo(earlier) < last.lo)
      && InOrder(earlier, last.lo)
  }

  ghost predicate NoneFlagged(slices: seq<Slice>) {
    forall i :: 0 <= i < |slices| ==> !slices[i].truncated
  }

  /** What the readers were handed, put together. */
  ghost function Delivered(appended: bytes, slices: seq<Slice>): bytes
    requires InOrder(slices, |appended|)
  {
    if slices == [] then []
    else
      var last, earlier := slices[|slices| - 1], slices[..|slices| - 1];
      MoveStart(earlier, last.lo, |appended|);
      Delivered(appended, earlier) + appended[last.lo..last.hi]
  }

  lemma MoveStart(slices: seq<Slice>, start: nat, later: nat)
    requires InOrder(slices, start) && start <= later
    ensures InOrder(slices, later)
  {
  }

  /** Readers that were never flagged have been handed an exact prefix. */
  lemma {:induction false} UnflaggedReadsLoseNothing(appended: bytes, slices: seq<Slice>)
    requires InOrder(slices, |appended|) && NoneFlagged(slices)
    ensures ReadUpTo(slices) <= |appended|
    ensures Delivered(appended, slices) == appended[..ReadUpTo(slices)]
  {
    if slices != [] {
      var last, earlier := slices[|slices| - 1], slices[..|slices| - 1];
      MoveStart(earlier, last.lo, |appended|);
      UnflaggedReadsLoseNothing(appended, earlier);
      assert appended[..last.lo] + appended[last.lo..last.hi] == appended[..last.hi];
    }
  }

  lemma UnflaggedReadsAndHeld(appended: bytes, slices: seq<Slice>, start: nat)
    requires InOrder(slices, |appended|) && NoneFlagged(slices) && ReadUpTo(slices) == start <= |appended|
    ensures Delivered(appended, slices) + appended[start..] == appended
  {
    UnflaggedReadsLoseNothing(appended, slices);
  }

  lemma AddRead(slices: seq<Slice>, slice: Slice, start: nat)
    requires InOrder(slices, slice.lo) && ReadUpTo(slices) <= slice.lo <= slice.hi <= start
    requires slice.truncated <==> ReadUpTo(slices) < slice.lo
    ensures InOrder(slices + [slice], start) && ReadUpTo(slices + [slice]) == slice.hi
    ensures NoneFlagged(slices + [slice]) <==> NoneFlagged(slices) && !slice.truncated
  {
    var more := slices + [slice];
    assert more[..|more| - 1] == slices;
    if NoneFlagged(more) {
      forall i | 0 <= i < |slices| ensures !slices[i].truncated {
        assert more[i] == slices[i];
      }
    }
  }

  /** The longest cut of at most `limit` bytes that does not split a character. */
  ghost predicate IsLongestCut(held: bytes, limit: nat, take: nat)
  {
    if |held| <= limit then take == |held|
    else
      && take <= limit && (take == 0 || !IsTail(held[take]))
      && forall t :: take < t <= limit ==> IsTail(held[t])
  }

  method LongestCut(held: bytes, maxBytes: nat) returns (take: nat)
    ensures take <= |held| && IsLongestCut(held, maxBytes, take)
  {
    take := if maxBytes < |held| then maxBytes else |held|;
    while take > 0 && take < |held| && IsContinuation(held[take])
      invariant 0 <= take <= |held|
      invariant if |held| <= maxBytes then take == |held|
                else take <= maxBytes && forall t :: take < t <= maxBytes ==> IsTail(held[t])
    {
      MaskMeansRange(held[take]);
      take := take - 1;
    }
    if take < |held| {
      MaskMeansRange(held[take]);
    }
  }

  class PtyOutputRing {
    const capacity: nat
    var held: bytes
    var lostUnread: bool
    ghost var appended: bytes     // everything appended since construction
    ghost var start: nat          // position in `appended` of the oldest byte held
    ghost var slices: seq<Slice>   // every read so far

    ghost predicate Valid()
      reads this
    {
      && capacity > 0
      && start <= |appended| && held == appended[start..] && |held| <= capacity
      && InOrder(slices, start) && ReadUpTo(slices) <= start
      && (lostUnread <==> ReadUpTo(slices) < start)
    }

    constructor (capacityBytes: nat)
      ensures Valid() && appended == [] && slices == []
      ensures capacity == if capacityBytes == 0 then 1 else capacityBytes
    {
      capacity := if capacityBytes == 0 then 1 else capacityBytes;
      held, lostUnread, appended, start, slices := [], false, [], 0, [];
    }

    method Append(chunk: bytes)
      requires Valid()
      modifies this
      ensures Valid() && appended == old(appended) + chunk && slices == old(slices)
      ensures held == if |old(held) + chunk| <= capacity then old(held) + chunk
                      else (old(held) + chunk)[|old(held) + chunk| - capacity..]
    {
      hide InOrder, ReadUpTo;
      held := held + chunk;
      appended := appended + chunk;
      assert held == appended[start..];
      if |held| > capacity {
        var excess := |held| - capacity;
        ghost var all := held;
        for i := 0 to excess
          modifies `held
          invariant held == all[i..]
        {
          held := held[1..];
        }
        start := start + excess;
        DropTwice(appended, old(start), excess);
        MoveStart(slices, old(start), start);
        lostUnread := true;
      }
    }

    method Read(maxBytes: nat) returns (out: bytes, truncated: bool)
      requires Valid()
      modifies this
      ensures Valid() && appended == old(appended)
      ensures IsLongestCut(old(held), maxBytes, |out|) && out == old(held)[..|out|] && held == old(held)[|out|..]
      ensures slices == old(slices) + [Slice(old(start), old(start) + |out|, truncated)]
      ensures truncated <==> ReadUpTo(old(slices)) < old(start)
      ensures start == old(start) + |out| && !lostUnread
      ensures NoneFlagged(slices) <==> NoneFlagged(old(slices)) && !truncated
    {
      hide InOrder, ReadUpTo, NoneFlagged, IsLongestCut;
      truncated := lostUnread;
      lostUnread := false;
      var take := LongestCut(held, maxBytes);
      out := held[..take];
      AddRead(slices, Slice(start, start + take, truncated), start + take);
      DropTwice(appended, start, take);
      slices := slices + [Slice(start, start + take, truncated)];
      held := held[take..];
      start := start + take;
    }
  }

  lemma DropTwice(s: bytes, i: nat, j: nat)
    requires i + j <= |s|
    ensures s[i..][j..] == s[i + j..]
  {
  }

  /** Four bytes always make progress on a suffix of well-formed text. */
  lemma FourBytesMakeProgress(appended: bytes, start: nat, limit: nat, take: nat)
    requires WellFormed(appended) && start < |appended| && limit >= 4
    requires IsLongestCut(appended[start..], limit, take)
    ensures take > 0
  {
    var held := appended[start..];
    if take == 0 {
      if |held| > limit {
        assert forall t :: 0 < t <= 4 ==> held[t] == appended[start + t];
        TailRunsAreShort(appended, 0, start + 1, |appended|);
      }
    }
  }

  /** What a read hands out of well-formed output is well-formed exactly when the ring does
      not start inside a character, that is unless an eviction has cut one in half. */
  lemma ReadIsWellFormedExactly(appended: bytes, start: nat, limit: nat, take: nat)
    requires WellFormed(appended) && start + take <= |appended|
    requires IsLongestCut(appended[start..], limit, take)
    ensures WellFormed(appended[start..start + take]) <==> take == 0 || !IsTail(appended[start])
  {
    var out, end := appended[start..start + take], start + take;
    assert end < |appended| && take > 0 ==> appended[start..][take] == appended[end];
    if take > 0 {
      assert out[0] == appended[start];
      if IsTail(appended[start]) {
        TailStartsNothing(out);
      } else {
        hide WellFormedRange;
        SplitAtBoundary(appended, 0, start, |appended|);
        SplitAtBoundary(appended, start, end, |appended|);
        SliceIsWellFormed(appended, start, end);
      }
    } else {
      assert out == [];
    }
  }

  lemma TailStartsNothing(s: bytes)
    requires s != [] && IsTail(s[0])
    ensures !WellFormed(s)
  {
  }

  /** Three bytes may not: a four-byte character at the front is never handed out. */
  lemma ThreeBytesMayStall()
    ensures WellFormed([0xF0, 0x9F, 0x98, 0x80]) && IsLongestCut([0xF0, 0x9F, 0x98, 0x80], 3, 0)
  {
    var s: bytes := [0xF0, 0x9F, 0x98, 0x80];
    assert IsChar(s, 0, 4) && WellFormedRange(s, 4, 4);
  }

  // ---------------------------------------------------------------------------
  // The terminal session's use of the ring
  // ---------------------------------------------------------------------------

  class PtyCapture {
    const ring: PtyOutputRing
    var utf8LossPending: bool
    ghost var raw: bytes       // every byte the child wrote
    ghost var replaced: bool   // some chunk was not well-formed
    ghost var flagged: bool    // some read came back truncated

    ghost predicate Valid()
      reads this, ring
    {
      && ring.Valid() && WellFormed(ring.appended)
      && (!replaced ==> ring.appended == raw)
      && (replaced ==> utf8LossPending || flagged)
      && (!flagged ==> NoneFlagged(ring.slices))
    }

    constructor (capacityBytes: nat)
      ensures Valid() && fresh(ring) && raw == [] && !flagged && ring.held == [] && ring.appended == []
      ensures ring.capacity == if capacityBytes == 0 then 1 else capacityBytes
    {
      ring := new PtyOutputRing(capacityBytes);
      utf8LossPending, raw, replaced, flagged := false, [], false, false;
    }

    method OnMasterRead(chunk: bytes)
      requires Valid()
      modifies this, ring
      ensures Valid() && raw == old(raw) + chunk && flagged == old(flagged)
      ensures ring.appended == old(ring.appended) + Sanitized(chunk)
      ensures var all := old(ring.held) + Sanitized(chunk);
              ring.held == if |all| <= ring.capacity then all else all[|all| - ring.capacity..]
    {
      hide WellFormedRange, SanitizedFrom, InOrder, ReadUpTo;
      var clean, lost := SanitizeUtf8(chunk, false);
      ring.Append(clean);
      if lost {
        utf8LossPending := true;
      }
      raw, replaced := raw + chunk, replaced || lost;
      SanitizedIsWellFormed(chunk, 0);
      ConcatIsWellFormed(old(ring.appended), clean);
      SanitizeIsIdentityExactlyOnWellFormed(chunk);
    }

    /** If no read so far was flagged, what the readers got is exactly what the
        child wrote, up to the bytes still held. */
    method Read(maxBytes: nat) returns (out: bytes, truncated: bool)
      requires Valid()
      modifies this, ring
      ensures Valid() && raw == old(raw) && flagged == (old(flagged) || truncated)
      ensures InOrder(ring.slices, |ring.appended|)
      ensures IsLongestCut(old(ring.held), maxBytes, |out|) && out == old(ring.held)[..|out|]
      ensures maxBytes >= 4 && old(ring.held) != [] ==> out != []
      ensures WellFormed(out) <==> out == [] || !IsTail(out[0])
      ensures !flagged ==> Delivered(ring.appended, ring.slices) + ring.held == raw
    {
      hide WellFormedRange, InOrder, Delivered, IsLongestCut, Sanitized;
      out, truncated := ring.Read(maxBytes);
      truncated := truncated || utf8LossPending;
      utf8LossPending := false;
      flagged := flagged || truncated;
      ReadIsWellFormedExactly(ring.appended, old(ring.start), maxBytes, |out|);
      assert out == ring.appended[old(ring.start)..old(ring.start) + |out|];
      if maxBytes >= 4 && old(ring.held) != [] {
        FourBytesMakeProgress(ring.appended, old(ring.start), maxBytes, |out|);
      }
      MoveStart(ring.slices, ring.start, |ring.appended|);
      if !flagged {
        UnflaggedReadsAndHeld(ring.appended, ring.slices, ring.start);
      }
    }
  }

  /** Room for one byte, and a character of two: what is left of it is handed out. */
  method HalfCharacterIsRead() returns (out: bytes)
    ensures WellFormed([0xC3, 0xA9]) && out == [0xA9] && !WellFormed(out)
  {
    var chunk: bytes := [0xC3, 0xA9];
    assert IsChar(chunk, 0, 2) && WellFormedRange(chunk, 2, 2);
    SanitizeIsIdentityExactlyOnWellFormed(chunk);
    TailStartsNothing([0xA9]);
    hide Sanitized, WellFormedRange, Delivered, InOrder, NoneFlagged, ReadUpTo;
    var capture := new PtyCapture(1);
    capture.OnMasterRead(chunk);
    assert [] + chunk == chunk && capture.ring.held == [0xA9];
    var truncated;
    out, truncated := capture.Read(1);
  }
}
