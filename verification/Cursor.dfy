/** Event cursors: base64url of `s1:<session id>:<sequence>`. */
module Cursor {
  import opened Utf8
  import opened Wrappers
  import opened Base64Url
  import opened Base64RoundTrip
  import opened Decimal

  const COLON: byte := 0x3A
  const PREFIX: bytes := [0x73, 0x31, COLON]  // "s1:"

  function Token(id: bytes, sequence: int): bytes {
    PREFIX + id + [COLON] + SignedNumeral(sequence)
  }

  method CursorFor(id: bytes, sequence: int) returns (cursor: bytes)
    ensures cursor == Encoded(Token(id, sequence))
  {
    cursor := Base64UrlEncode(Token(id, sequence));
  }

  /** Position of the first `b` at or after `from`, or the length when there is none. */
  function Find(s: bytes, b: byte, from: nat): (at: nat)
    requires from <= |s|
    ensures from <= at <= |s| && (at < |s| ==> s[at] == b)
    ensures forall i :: from <= i < at ==> s[i] != b
    decreases |s| - from
  {
    if from == |s| || s[from] == b then from else Find(s, b, from + 1)
  }

  /** What a token says about session `id`. */
  function SequenceOf(token: bytes, id: bytes): Option<int> {
    if !(PREFIX <= token) then None
    else
      var separator := Find(token, COLON, 3);
      if separator == |token| || token[3..separator] != id then None
      else
        match FromChars(token[separator + 1..])
        case Some(n) => if n < 0 then None else Some(n)
        case None => None
  }

  function Resolved(id: bytes, cursor: bytes, head: Option<int>): Option<int> {
    match Decoded(cursor)
    case None => None
    case Some(token) =>
      match SequenceOf(token, id)
      case None => None
      case Some(n) => if head.None? then None else if n > head.value then head else Some(n)
  }

  /** `resolveCursor`; `head` is what the store answers for `id`, None when it throws. */
  method ResolveCursor(id: bytes, cursor: bytes, head: Option<int>) returns (sequence: Option<int>)
    ensures sequence == Resolved(id, cursor, head)
  {
    var decoded := Base64UrlDecode(cursor);
    if decoded.None? {
      return None;
    }
    var token := decoded.value;
    if !(PREFIX <= token) {
      return None;
    }
    var separator := Find(token, COLON, 3);
    if separator == |token| {
      return None;
    }
    if token[3..separator] != id {
      return None;
    }
    var digits := token[separator + 1..];
    if digits == [] {
      return None;
    }
    var parsed := FromChars(digits);
    if parsed.None? || parsed.value < 0 {
      return None;
    }
    if head.None? {
      return None;
    }
    if parsed.value > head.value {
      return head;
    }
    return parsed;
  }

  lemma TokenShape(id: bytes, sequence: int)
    ensures var token := Token(id, sequence);
            && PREFIX <= token && |token| > |id| + 4
            && (forall i :: 0 <= i < |id| ==> token[3 + i] == id[i])
            && token[3 + |id|] == COLON && token[3 + |id| + 1..] == SignedNumeral(sequence)
  {
    NumeralReadsBack(if sequence < 0 then -sequence else sequence);
  }

  lemma ColonIsNoDigit(b: bytes)
    requires COLON in b
    ensures FromChars(b).None?
  {
    var i :| 0 <= i < |b| && b[i] == COLON;
    if b[0] == MINUS {
      assert b[1..][i - 1] == COLON;
    }
  }

  /** A cursor names its own session exactly when the id holds no colon and the
      sequence is not negative; it never names another session. */
  lemma TokenNamesOnlyItsSession(id: bytes, sequence: int, other: bytes)
    requires -INT64_LIMIT <= sequence < INT64_LIMIT
    ensures SequenceOf(Token(id, sequence), other) ==
            if other == id && COLON !in id && sequence >= 0 then Some(sequence) else None
  {
    var token := Token(id, sequence);
    TokenShape(id, sequence);
    var separator := Find(token, COLON, 3);
    if COLON in id {
      var k :| 0 <= k < |id| && id[k] == COLON;
      assert token[3 + k] == COLON;
      assert separator <= 3 + k;
      var digits := token[separator + 1..];
      assert digits[3 + |id| - separator - 1] == token[3 + |id|];
      ColonIsNoDigit(digits);
    } else {
      assert forall i :: 3 <= i < 3 + |id| ==> token[i] == id[i - 3];
      assert separator == 3 + |id|;
      assert token[3..separator] == id;
      FromCharsReadsNumeral(sequence);
    }
  }

  /** `resolveCursor(cursorFor(id, n))` is min(n, head) for the same session and
      nothing for any other, exactly when the id holds no colon and n >= 0. */
  lemma {:induction false} CursorRoundTrip(id: bytes, sequence: int, other: bytes, head: int)
    requires -INT64_LIMIT <= sequence < INT64_LIMIT
    ensures Resolved(other, Encoded(Token(id, sequence)), Some(head)) ==
            if other == id && COLON !in id && sequence >= 0
            then Some(if sequence > head then head else sequence) else None
  {
    DecodeUndoesEncode(Token(id, sequence));
    TokenNamesOnlyItsSession(id, sequence, other);
  }
}
