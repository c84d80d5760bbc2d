/** Bounded capture of tool output: the byte ring and the sinks that fill it. */
module Output {
  import opened Utf8
  import opened Sanitizer

  function LastBytes(s: bytes, n: nat): (t: bytes)
    ensures |t| == if |s| <= n then |s| else n
  {
    if |s| <= n then s else s[|s| - n..]
  }

  /** `tail`: the last bytes, cut forward to a character start. */
  function TrimmedTail(s: bytes, n: nat): bytes {
    LastBytes(s, n)[LeadingTails(LastBytes(s, n), 0)..]
  }

  lemma TrimmedTailIsWellFormed(s: bytes, n: nat)
    requires WellFormed(s)
    ensures WellFormed(TrimmedTail(s, n))
  {
    var cut := if |s| <= n then 0 else |s| - n;
    assert s[cut..] == LastBytes(s, n);
    TrimmedSuffixIsWellFormed(s, cut);
  }

  lemma NestedTails(s: bytes, m: nat, n: nat)
    ensures LastBytes(LastBytes(s, m), n) == LastBytes(s, if m < n then m else n)
  {
  }

  /** A text that fits is returned whole. */
  lemma WholeTail(s: bytes, n: nat)
    requires WellFormed(s) && |s| <= n
    ensures TrimmedTail(s, n) == s
  {
    if s != [] {
      var k :| 0 < k <= |s| && IsChar(s, 0, k) && WellFormedRange(s, k, |s|);
      assert !IsTail(s[0]);
    }
  }

  lemma LongChunkReplacesAll(s: bytes, chunk: bytes, n: nat)
    requires |chunk| >= n
    ensures LastBytes(s + chunk, n) == chunk[|chunk| - n..]
  {
  }

  /** Dropping just enough of the oldest bytes keeps the newest `n`. */
  lemma EvictThenAppend(s: bytes, chunk: bytes, n: nat, kept: bytes)
    requires |chunk| < n && |kept| <= |LastBytes(s, n)|
    requires kept == LastBytes(s, n)[|LastBytes(s, n)| - |kept|..]
    requires |kept| + |chunk| == n || (|kept| + |chunk| <= n && kept == LastBytes(s, n))
    ensures LastBytes(s + chunk, n) == kept + chunk
  {
    var dropped := |s| - |kept|;
    assert kept == s[dropped..];
    if |kept| + |chunk| < n {
      assert |s| <= n;
    } else {
      assert (s + chunk)[dropped..] == s[dropped..] + chunk;
      assert |s + chunk| - n == dropped;
    }
  }

  // ---------------------------------------------------------------------------
  // The ring
  // ---------------------------------------------------------------------------

  class OutputRing {
    const capacity: nat
    var held: bytes
    var totalAppended: nat
    var truncated: bool
    ghost var history: bytes  // everything appended since construction or the last clear

    ghost predicate Valid()
      reads this
    {
      && capacity > 0
      && held == LastBytes(history, capacity)
      && totalAppended == |history|
      && (truncated <==> |history| > capacity)
    }

    constructor (capacityBytes: nat)
      ensures Valid() && history == []
      ensures capacity == if capacityBytes == 0 then 1 else capacityBytes
    {
      capacity := if capacityBytes == 0 then 1 else capacityBytes;
      held, totalAppended, truncated, history := [], 0, false, [];
    }

    method Append(chunk: bytes)
      requires Valid()
      modifies this
      ensures Valid() && history == old(history) + chunk
    {
      totalAppended := totalAppended + |chunk|;
      history := history + chunk;
      if |chunk| >= capacity {
        if held != [] || |chunk| > capacity {
          truncated := true;
        }
        held := chunk[|chunk| - capacity..];
        LongChunkReplacesAll(old(history), chunk, capacity);
        return;
      }
      ghost var before := held;
      while |held| + |chunk| > capacity
        invariant |held| <= |before| && held == before[|before| - |held|..]
        invariant |held| < |before| ==> |held| + |chunk| >= capacity
        invariant truncated <==> old(truncated) || |held| < |before|
        invariant history == old(history) + chunk && totalAppended == |history|
      {
        held := held[1..];
        truncated := true;
      }
      EvictThenAppend(old(history), chunk, capacity, held);
      held := held + chunk;
    }

    method Tail(maxBytes: nat) returns (out: bytes)
      requires Valid()
      ensures out == TrimmedTail(history, if maxBytes < capacity then maxBytes else capacity)
      ensures WellFormed(history) ==> WellFormed(out)
    {
      var take := if maxBytes < |held| then maxBytes else |held|;
      out := [];
      for i := |held| - take to |held|
        invariant out == held[|held| - take..i]
      {
        out := out + [held[i]];
      }
      assert held[|held| - take..|held|] == LastBytes(held, maxBytes);
      NestedTails(history, capacity, maxBytes);
      out := TrimToUtf8Start(out);
      if WellFormed(history) {
        TrimmedTailIsWellFormed(history, if maxBytes < capacity then maxBytes else capacity);
      }
    }

    method Clear()
      modifies this
      requires Valid()
      ensures Valid() && history == [] && !truncated
    {
      held, totalAppended, truncated, history := [], 0, false, [];
    }
  }

  // ---------------------------------------------------------------------------
  // The sinks
  // ---------------------------------------------------------------------------

  /** What the ring has received after `chunks` were written. */
  ghost function SanitizedAll(chunks: seq<bytes>): bytes {
    if chunks == [] then [] else SanitizedAll(chunks[..|chunks| - 1]) + Sanitized(chunks[|chunks| - 1])
  }

  ghost function Concatenated(chunks: seq<bytes>): bytes {
    if chunks == [] then [] else Concatenated(chunks[..|chunks| - 1]) + chunks[|chunks| - 1]
  }

  ghost predicate AllWellFormed(chunks: seq<bytes>) {
    forall i :: 0 <= i < |chunks| ==> WellFormed(chunks[i])
  }

  lemma {:induction false} SanitizedAllIsWellFormed(chunks: seq<bytes>)
    ensures WellFormed(SanitizedAll(chunks))
  {
    if chunks != [] {
      SanitizedAllIsWellFormed(chunks[..|chunks| - 1]);
      SanitizedIsWellFormed(chunks[|chunks| - 1], 0);
      ConcatIsWellFormed(SanitizedAll(chunks[..|chunks| - 1]), Sanitized(chunks[|chunks| - 1]));
    }
  }

  /** Sanitising chunk by chunk keeps the length exactly when every chunk is well-formed. */
  lemma {:induction false} SanitizingAllLengthens(chunks: seq<bytes>)
    ensures |SanitizedAll(chunks)| >= |Concatenated(chunks)|
    ensures |SanitizedAll(chunks)| == |Concatenated(chunks)| <==> AllWellFormed(chunks)
  {
    if chunks != [] {
      var init, last := chunks[..|chunks| - 1], chunks[|chunks| - 1];
      SanitizingAllLengthens(init);
      SanitizingLengthens(last, 0);
      assert chunks == init + [last];
      AddChunk(init, last);
    }
  }

  /** What the ring receives is what was written exactly when every chunk is well-formed. */
  lemma {:induction false} NothingLostWhenAllWellFormed(chunks: seq<bytes>)
    ensures SanitizedAll(chunks) == Concatenated(chunks) <==> AllWellFormed(chunks)
  {
    SanitizingAllLengthens(chunks);
    if AllWellFormed(chunks) && chunks != [] {
      NothingLostWhenAllWellFormed(chunks[..|chunks| - 1]);
      SanitizeIsIdentityExactlyOnWellFormed(chunks[|chunks| - 1]);
    }
  }

  /** A sink over a ring it may share: whoever else writes, the ring stays well-formed. */
  class RingOutputSink {
    const ring: OutputRing
    var utf8Loss: bool
    var bytesWritten: nat

    ghost predicate Valid()
      reads this, ring
    {
      ring.Valid() && WellFormed(ring.history)
    }

    constructor (ring: OutputRing)
      requires ring.Valid() && WellFormed(ring.history)
      ensures Valid() && this.ring == ring && !utf8Loss && bytesWritten == 0
    {
      this.ring := ring;
      utf8Loss, bytesWritten := false, 0;
    }

    method Write(chunk: bytes)
      requires Valid()
      modifies this, ring
      ensures Valid() && ring.history == old(ring.history) + Sanitized(chunk)
      ensures utf8Loss <==> old(utf8Loss) || !WellFormed(chunk)
      ensures bytesWritten == old(bytesWritten) + |chunk|
    {
      var clean, lost := SanitizeUtf8(chunk, false);
      utf8Loss := utf8Loss || lost;
      bytesWritten := bytesWritten + |chunk|;
      ring.Append(clean);
      SanitizedIsWellFormed(chunk, 0);
      ConcatIsWellFormed(old(ring.history), clean);
    }

    method Materialize(maxBytes: nat) returns (out: bytes)
      requires Valid()
      ensures WellFormed(out) && |out| <= maxBytes
      ensures out == TrimmedTail(ring.history, if maxBytes < ring.capacity then maxBytes else ring.capacity)
    {
      out := ring.Tail(maxBytes);
    }
  }

  /** One tool call's output: a private ring and, when attached, the live one. */
  class CallOutputSink {
    const callRing: OutputRing
    const live: OutputRing?
    var utf8Loss: bool
    var bytesWritten: nat
    ghost var chunks: seq<bytes>  // every chunk written so far, as it came

    ghost predicate Valid()
      reads this, callRing, live
    {
      && callRing.Valid() && callRing.history == SanitizedAll(chunks)
      && (utf8Loss <==> !AllWellFormed(chunks))
      && bytesWritten == |Concatenated(chunks)|
      && (live != null ==> live != callRing && live.Valid() && WellFormed(live.history))
    }

    constructor (capacity: nat, live: OutputRing?)
      requires live != null ==> live.Valid() && WellFormed(live.history)
      ensures Valid() && fresh(callRing) && this.live == live && chunks == []
    {
      this.callRing := new OutputRing(capacity);
      this.live := live;
      utf8Loss, bytesWritten, chunks := false, 0, [];
    }

    method Write(chunk: bytes)
      requires Valid()
      modifies this, callRing, live
      ensures Valid() && chunks == old(chunks) + [chunk]
      ensures live != null ==> live.history == old(live.history) + Sanitized(chunk)
    {
      var clean, lost := SanitizeUtf8(chunk, false);
      utf8Loss := utf8Loss || lost;
      bytesWritten := bytesWritten + |chunk|;
      callRing.Append(clean);
      if live != null {
        live.Append(clean);
        SanitizedIsWellFormed(chunk, 0);
        ConcatIsWellFormed(old(live.history), clean);
      }
      AddChunk(chunks, chunk);
      chunks := chunks + [chunk];
    }

    method Truncated() returns (t: bool)
      requires Valid()
      ensures t <==> !AllWellFormed(chunks) || |SanitizedAll(chunks)| > callRing.capacity
    {
      t := utf8Loss || callRing.truncated;
    }

    /** Well-formed whatever was written; the exact output when nothing was flagged and it fits. */
    method Materialize(maxBytes: nat) returns (out: bytes)
      requires Valid()
      ensures WellFormed(out) && |out| <= maxBytes
      ensures out == TrimmedTail(SanitizedAll(chunks),
                                 if maxBytes < callRing.capacity then maxBytes else callRing.capacity)
      ensures !utf8Loss && !callRing.truncated && bytesWritten <= maxBytes ==> out == Concatenated(chunks)
    {
      SanitizedAllIsWellFormed(chunks);
      out := callRing.Tail(maxBytes);
      if !utf8Loss && !callRing.truncated && bytesWritten <= maxBytes {
        NothingLostWhenAllWellFormed(chunks);
        WholeTail(SanitizedAll(chunks), if maxBytes < callRing.capacity then maxBytes else callRing.capacity);
      }
    }
  }

  lemma AddChunk(chunks: seq<bytes>, chunk: bytes)
    ensures SanitizedAll(chunks + [chunk]) == SanitizedAll(chunks) + Sanitized(chunk)
    ensures Concatenated(chunks + [chunk]) == Concatenated(chunks) + chunk
    ensures AllWellFormed(chunks + [chunk]) <==> AllWellFormed(chunks) && WellFormed(chunk)
  {
    var more := chunks + [chunk];
    assert more[..|more| - 1] == chunks && more[|more| - 1] == chunk;
    if AllWellFormed(more) {
      forall i | 0 <= i < |chunks| ensures WellFormed(chunks[i]) {
        assert more[i] == chunks[i];
      }
    }
  }
}
