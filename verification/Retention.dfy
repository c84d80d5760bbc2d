/** `TextRetainer`: keeps the head and/or tail of a byte stream within a budget
    of JSON-escaped width. */
module Retention {
  import opened Utf8

  /** Width of one byte once JSON-escaped. */
  function EscapedWidth(b: byte): (width: nat)
    ensures width >= 1
  {
    if b == 0x22 || b == 0x5C then 2 else if b < 0x20 then 6 else 1
  }

  function TotalWidth(s: bytes): nat {
    if s == [] then 0 else TotalWidth(s[..|s| - 1]) + EscapedWidth(s[|s| - 1])
  }

  lemma {:induction false} WidthOfConcat(a: bytes, b: bytes)
    ensures TotalWidth(a + b) == TotalWidth(a) + TotalWidth(b)
  {
    if b == [] {
      assert a + b == a;
    } else {
      WidthOfConcat(a, b[..|b| - 1]);
      assert (a + b)[..|a + b| - 1] == a + b[..|b| - 1];
    }
  }

  // ---------------------------------------------------------------------------
  // Head and tail as functions of the stream
  // ---------------------------------------------------------------------------

  /** The head keeps every byte that still fits, also after one that did not. */
  function HeadOf(stream: bytes, budget: nat): bytes {
    if stream == [] then []
    else
      var head, b := HeadOf(stream[..|stream| - 1], budget), stream[|stream| - 1];
      if TotalWidth(head) + EscapedWidth(b) <= budget then head + [b] else head
  }

  /** `tail` is the longest suffix of the stream whose width fits. */
  ghost predicate IsLongestFittingSuffix(stream: bytes, budget: nat, tail: bytes)
  {
    && |tail| <= |stream| && tail == stream[|stream| - |tail|..] && TotalWidth(tail) <= budget
    && (|tail| < |stream| ==> TotalWidth(stream[|stream| - |tail| - 1..]) > budget)
  }

  lemma LongestFittingSuffixIsUnique(stream: bytes, budget: nat, t: bytes, u: bytes)
    requires IsLongestFittingSuffix(stream, budget, t) && IsLongestFittingSuffix(stream, budget, u)
    ensures t == u
  {
    hide TotalWidth;
    if |t| < |u| {
      LongerSuffixIsWider(stream, |stream| - |u|, |stream| - |t| - 1);
    } else if |u| < |t| {
      LongerSuffixIsWider(stream, |stream| - |t|, |stream| - |u| - 1);
    }
  }

  lemma LongerSuffixIsWider(s: bytes, i: nat, j: nat)
    requires i <= j <= |s|
    ensures TotalWidth(s[i..]) >= TotalWidth(s[j..])
  {
    assert s[i..] == s[i..j] + s[j..];
    WidthOfConcat(s[i..j], s[j..]);
  }

  lemma {:induction false} HeadFitsBudget(stream: bytes, budget: nat)
    ensures TotalWidth(HeadOf(stream, budget)) <= budget && |HeadOf(stream, budget)| <= |stream|
  {
    if stream != [] {
      HeadFitsBudget(stream[..|stream| - 1], budget);
      var head, b := HeadOf(stream[..|stream| - 1], budget), stream[|stream| - 1];
      assert (head + [b])[..|head|] == head;
    }
  }

  // ---------------------------------------------------------------------------
  // When the head is a prefix
  // ---------------------------------------------------------------------------

  /** Once a byte did not fit, every later byte is too wide for what is left. */
  ghost predicate NothingFitsLater(stream: bytes, budget: nat)
  {
    forall k, i :: 0 <= k < i < |stream| && FirstMisfit(stream, budget, k) ==>
      TotalWidth(stream[..k]) + EscapedWidth(stream[i]) > budget
  }

  ghost predicate FirstMisfit(stream: bytes, budget: nat, k: nat)
  {
    k < |stream| && TotalWidth(stream[..k]) <= budget < TotalWidth(stream[..k]) + EscapedWidth(stream[k])
  }

  /** The head and the width of a prefix, by its last byte. */
  lemma PrefixStep(stream: bytes, budget: nat, k: nat)
    requires 0 < k <= |stream|
    ensures HeadOf(stream[..k], budget) ==
            var head, b := HeadOf(stream[..k - 1], budget), stream[k - 1];
            if TotalWidth(head) + EscapedWidth(b) <= budget then head + [b] else head
    ensures TotalWidth(stream[..k]) == TotalWidth(stream[..k - 1]) + EscapedWidth(stream[k - 1])
    ensures stream[..k] == stream[..k - 1] + [stream[k - 1]]
  {
    hide EscapedWidth;
    var s := stream[..k];
    assert s[..|s| - 1] == stream[..k - 1] && s[|s| - 1] == stream[k - 1];
  }

  lemma EmptyPrefix(stream: bytes, budget: nat)
    ensures stream[..0] == [] && HeadOf(stream[..0], budget) == [] && TotalWidth(stream[..0]) == 0
  {
  }

  lemma {:induction false} HeadOfFittingPrefix(stream: bytes, budget: nat, k: nat)
    requires k <= |stream| && TotalWidth(stream[..k]) <= budget
    ensures HeadOf(stream[..k], budget) == stream[..k]
    decreases k
  {
    hide HeadOf, TotalWidth, EscapedWidth;
    if k == 0 {
      EmptyPrefix(stream, budget);
    } else {
      PrefixStep(stream, budget, k);
      HeadOfFittingPrefix(stream, budget, k - 1);
    }
  }

  lemma {:induction false} HeadStaysAtMisfit(stream: bytes, budget: nat, k: nat, n: nat)
    requires k <= n <= |stream| && FirstMisfit(stream, budget, k)
    requires forall i :: k < i < n ==> TotalWidth(stream[..k]) + EscapedWidth(stream[i]) > budget
    ensures HeadOf(stream[..n], budget) == stream[..k]
    decreases n
  {
    if n == k {
      HeadOfFittingPrefix(stream, budget, k);
    } else {
      hide HeadOf, TotalWidth, EscapedWidth;
      assert TotalWidth(stream[..k]) + EscapedWidth(stream[n - 1]) > budget;
      hide FirstMisfit;
      HeadStaysAtMisfit(stream, budget, k, n - 1);
      PrefixStep(stream, budget, n);
    }
  }

  /** Later bytes only ever extend the head. */
  lemma {:induction false} HeadGrows(stream: bytes, budget: nat, m: nat, n: nat)
    requires m <= n <= |stream|
    ensures HeadOf(stream[..m], budget) <= HeadOf(stream[..n], budget)
    decreases n
  {
    hide HeadOf, TotalWidth, EscapedWidth;
    if m < n {
      PrefixStep(stream, budget, n);
      HeadGrows(stream, budget, m, n - 1);
    }
  }

  /** Either everything fits or there is a first byte that does not. */
  lemma {:induction false} FindMisfit(stream: bytes, budget: nat, n: nat) returns (k: nat)
    requires n <= |stream|
    ensures k <= n && TotalWidth(stream[..k]) <= budget
    ensures k < n ==> FirstMisfit(stream, budget, k)
    decreases n
  {
    if n == 0 {
      k := 0;
    } else {
      k := FindMisfit(stream, budget, n - 1);
      if k == n - 1 {
        PrefixStep(stream, budget, n);
        if TotalWidth(stream[..n]) <= budget {
          k := n;
        }
      }
    }
  }

  lemma MisfitExceeds(stream: bytes, budget: nat, k: nat)
    requires FirstMisfit(stream, budget, k)
    ensures TotalWidth(stream) > budget
  {
    assert stream[..k] + [stream[k]] == stream[..k + 1] && stream[..k + 1] + stream[k + 1..] == stream;
    assert stream[..k + 1][..k] == stream[..k];
    WidthOfConcat(stream[..k + 1], stream[k + 1..]);
  }

  /** The head is a prefix of the stream exactly when nothing fits after the first
      byte that did not. */
  lemma HeadIsPrefixExactlyWhenNothingFitsLater(stream: bytes, budget: nat)
    ensures HeadOf(stream, budget) <= stream <==> NothingFitsLater(stream, budget)
  {
    hide TotalWidth, EscapedWidth, HeadOf;
    var n := |stream|;
    assert stream[..n] == stream;
    var k := FindMisfit(stream, budget, n);
    if k == n {
      HeadOfFittingPrefix(stream, budget, n);
      forall j: nat | FirstMisfit(stream, budget, j) ensures false {
        MisfitExceeds(stream, budget, j);
      }
    } else if NothingFitsLater(stream, budget) {
      HeadStaysAtMisfit(stream, budget, k, n);
    } else {
      var j, i :| 0 <= j < i < n && FirstMisfit(stream, budget, j)
                  && TotalWidth(stream[..j]) + EscapedWidth(stream[i]) <= budget;
      FirstFitBreaksPrefix(stream, budget, j, i);
    }
  }

  lemma HeadTakes(stream: bytes, budget: nat, k: nat, i: nat)
    requires k < i < |stream| && HeadOf(stream[..i], budget) == stream[..k]
    requires TotalWidth(stream[..k]) + EscapedWidth(stream[i]) <= budget
    ensures HeadOf(stream[..i + 1], budget) == stream[..k] + [stream[i]]
  {
    hide HeadOf, TotalWidth, EscapedWidth;
    PrefixStep(stream, budget, i + 1);
  }

  lemma NarrowerDiffers(stream: bytes, budget: nat, k: nat, i: nat)
    requires k < i < |stream| && FirstMisfit(stream, budget, k)
    requires TotalWidth(stream[..k]) + EscapedWidth(stream[i]) <= budget
    ensures stream[i] != stream[k]
  {
    hide TotalWidth, EscapedWidth;
  }

  /** A byte accepted after the misfit takes the misfit's place. */
  lemma {:induction false} FirstFitBreaksPrefix(stream: bytes, budget: nat, k: nat, i: nat)
    requires k < i < |stream| && FirstMisfit(stream, budget, k)
    requires TotalWidth(stream[..k]) + EscapedWidth(stream[i]) <= budget
    ensures !(HeadOf(stream, budget) <= stream)
    decreases i
  {
    hide HeadOf, TotalWidth, EscapedWidth, FirstMisfit;
    if j :| k < j < i && TotalWidth(stream[..k]) + EscapedWidth(stream[j]) <= budget {
      FirstFitBreaksPrefix(stream, budget, k, j);
    } else {
      HeadStaysAtMisfit(stream, budget, k, i);
      HeadTakes(stream, budget, k, i);
      NarrowerDiffers(stream, budget, k, i);
      HeadGrows(stream, budget, i + 1, |stream|);
      assert stream[..|stream|] == stream;
      var head := HeadOf(stream, budget);
      assert head[k] == (stream[..k] + [stream[i]])[k] == stream[i];
    }
  }

  /** In particular for streams without quotes, backslashes and control bytes. */
  lemma PlainStreamsKeepPrefix(stream: bytes, budget: nat)
    requires forall i :: 0 <= i < |stream| ==> EscapedWidth(stream[i]) == 1
    ensures HeadOf(stream, budget) <= stream
  {
    HeadIsPrefixExactlyWhenNothingFitsLater(stream, budget);
  }
}
