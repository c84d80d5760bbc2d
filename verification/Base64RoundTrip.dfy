/** base64url encoding and decoding are mutually inverse. */
module Base64RoundTrip {
  import opened Utf8
  import opened Wrappers
  import opened Base64Url

  // ---------------------------------------------------------------------------
  // Four symbols against three bytes
  // ---------------------------------------------------------------------------

  lemma SymbolValues(a: byte, b: byte)
    ensures Value(Symbol0(a)) == a >> 2 && InAlphabet(Symbol0(a))
    ensures Value(Symbol1(a, b)) == ((a & 3) << 4) | (b >> 4) && InAlphabet(Symbol1(a, b))
    ensures Value(Symbol2(a, b)) == ((a & 15) << 2) | (b >> 6) && InAlphabet(Symbol2(a, b))
    ensures Value(Symbol3(a)) == a & 63 && InAlphabet(Symbol3(a))
  {
    TableInvertsAlphabet(Symbol0(a), a >> 2);
    TableInvertsAlphabet(Symbol1(a, b), ((a & 3) << 4) | (b >> 4));
    TableInvertsAlphabet(Symbol2(a, b), ((a & 15) << 2) | (b >> 6));
    TableInvertsAlphabet(Symbol3(a), a & 63);
  }

  function Triple(p: byte, q: byte, r: byte, t: byte): bytes {
    [Byte0(Value(p), Value(q)), Byte1(Value(q), Value(r)), Byte2(Value(r), Value(t))]
  }

  /** The symbols of three bytes decode to those bytes. */
  lemma {:induction false} BytesOfSymbols(a: byte, b: byte, c: byte)
    ensures var p, q, r, t := Symbol0(a), Symbol1(a, b), Symbol2(b, c), Symbol3(c);
            Triple(p, q, r, t) == [a, b, c] && InAlphabet(p) && InAlphabet(q) && InAlphabet(r) && InAlphabet(t)
  {
    SymbolValues(a, b);
    SymbolValues(b, c);
    SymbolValues(c, c);
  }

  /** The symbols of a short final group carry no stray bits. */
  lemma ShortGroupsAreCanonical(a: byte)
    ensures Value(Symbol1(a, 0)) & 15 == 0 && Value(Symbol2(a, 0)) & 3 == 0
  {
    SymbolValues(a, 0);
  }

  /** The bytes of four symbols encode to those symbols. */
  lemma SymbolsOfBytes(p: byte, q: byte, r: byte, t: byte)
    requires InAlphabet(p) && InAlphabet(q) && InAlphabet(r) && InAlphabet(t)
    ensures var a, b, c := Byte0(Value(p), Value(q)), Byte1(Value(q), Value(r)), Byte2(Value(r), Value(t));
            Symbol0(a) == p && Symbol1(a, b) == q && Symbol2(b, c) == r && Symbol3(c) == t
  {
    var a, b, c := Byte0(Value(p), Value(q)), Byte1(Value(q), Value(r)), Byte2(Value(r), Value(t));
    assert a >> 2 == Value(p);
    assert ((a & 3) << 4) | (b >> 4) == Value(q);
    assert ((b & 15) << 2) | (c >> 6) == Value(r);
    assert c & 63 == Value(t);
    TableInvertsAlphabet(p, Value(p));
    TableInvertsAlphabet(q, Value(q));
    TableInvertsAlphabet(r, Value(r));
    TableInvertsAlphabet(t, Value(t));
  }

  lemma SymbolsOfOneByte(p: byte, q: byte)
    requires InAlphabet(p) && InAlphabet(q) && Value(q) & 15 == 0
    ensures var a := Byte0(Value(p), Value(q)); Symbol0(a) == p && Symbol1(a, 0) == q
  {
    var a := Byte0(Value(p), Value(q));
    assert a >> 2 == Value(p);
    assert ((a & 3) << 4) | (0 >> 4) == Value(q);
    TableInvertsAlphabet(p, Value(p));
    TableInvertsAlphabet(q, Value(q));
  }

  lemma SymbolsOfTwoBytes(p: byte, q: byte, r: byte)
    requires InAlphabet(p) && InAlphabet(q) && InAlphabet(r) && Value(r) & 3 == 0
    ensures var a, b := Byte0(Value(p), Value(q)), Byte1(Value(q), Value(r));
            Symbol0(a) == p && Symbol1(a, b) == q && Symbol2(b, 0) == r
  {
    var a, b := Byte0(Value(p), Value(q)), Byte1(Value(q), Value(r));
    assert a >> 2 == Value(p);
    assert ((a & 3) << 4) | (b >> 4) == Value(q);
    assert ((b & 15) << 2) | (0 >> 6) == Value(r);
    TableInvertsAlphabet(p, Value(p));
    TableInvertsAlphabet(q, Value(q));
    TableInvertsAlphabet(r, Value(r));
  }

  // ---------------------------------------------------------------------------
  // Whole texts
  // ---------------------------------------------------------------------------

  lemma EncodedGroup(s: bytes, k: nat, d: nat)
    requires d < 3 && 3 * k + d < |s|
    ensures var x := Encoded(s);
            && 4 * k + d + 1 < |x|
            && x[4 * k + d] == EncodedAt(s, 4 * k + d) && x[4 * k + d + 1] == EncodedAt(s, 4 * k + d + 1)
  {
    hide EncodedAt;
  }

  /** What byte `d` of group `k` of the encoding decodes to. */
  lemma {:induction false} DecodeEncodedByte(s: bytes, k: nat, d: nat)
    requires d < 3 && 3 * k + d < |s|
    ensures var x := Encoded(s);
            4 * k + d + 1 < |x| && CompletedByte(d + 1, Value(x[4 * k + d]), Value(x[4 * k + d + 1])) == s[3 * k + d]
  {
    hide Symbol0, Symbol1, Symbol2, Symbol3, Byte0, Byte1, Byte2, Value, InAlphabet, Encoded, EncodedAt;
    var a, b, c := ByteOrZero(s, 3 * k), ByteOrZero(s, 3 * k + 1), ByteOrZero(s, 3 * k + 2);
    GroupSymbols(s, k, a, b, c);
    EncodedGroup(s, k, d);
    BytesOfSymbols(a, b, c);
    var triple := Triple(Symbol0(a), Symbol1(a, b), Symbol2(b, c), Symbol3(c));
    assert triple[0] == a && triple[1] == b && triple[2] == c;
  }

  lemma {:induction false} DecodeEncodedGroup(s: bytes, j: nat)
    requires j < |s|
    ensures var x := Encoded(s);
            4 * (j / 3) + j % 3 + 1 < |x| && DecodedAt(x, j) == s[j]
  {
    hide CompletedByte, Value, Encoded;
    DecodeEncodedByte(s, j / 3, j % 3);
  }

  lemma {:induction false} EncodedSymbolsAreInAlphabet(s: bytes, j: nat)
    ensures InAlphabet(EncodedAt(s, j))
  {
    hide Symbol0, Symbol1, Symbol2, Symbol3, InAlphabet;
    var i := 3 * (j / 4);
    SymbolValues(ByteOrZero(s, i), ByteOrZero(s, i + 1));
    SymbolValues(ByteOrZero(s, i + 1), ByteOrZero(s, i + 2));
    SymbolValues(ByteOrZero(s, i + 2), 0);
  }

  /** decode(encode(s)) == s */
  lemma {:induction false} DecodeUndoesEncode(s: bytes)
    ensures Decoded(Encoded(s)) == Some(s)
  {
    hide EncodedAt, DecodedAt, InAlphabet, Value;
    var x := Encoded(s);
    forall j | 0 <= j < |x| ensures InAlphabet(x[j]) {
      EncodedSymbolsAreInAlphabet(s, j);
    }
    EncodedEndsCanonically(s);
    forall j | 0 <= j < |s| ensures DecodedLength(|x|) == |s| && DecodedBytes(x)[j] == s[j] {
      DecodeEncodedGroup(s, j);
    }
    assert DecodedBytes(x) == s;
  }

  lemma EncodedEndsCanonically(s: bytes)
    ensures |Encoded(s)| % 4 != 1 && PadBits(Encoded(s)) == 0
  {
    hide Symbol0, Symbol1, Symbol2, Symbol3, Value;
    var n, x := |s| / 3, Encoded(s);
    var a, b := ByteOrZero(s, 3 * n), ByteOrZero(s, 3 * n + 1);
    GroupSymbols(s, n, a, b, ByteOrZero(s, 3 * n + 2));
    ShortGroupsAreCanonical(a);
    ShortGroupsAreCanonical(b);
  }

  lemma DecodedByte(x: bytes, k: nat, position: nat)
    requires position < 3
    ensures ByteOrZero(DecodedBytes(x), 3 * k + position) ==
            if 4 * k + position + 1 < |x|
            then CompletedByte(position + 1, Value(x[4 * k + position]), Value(x[4 * k + position + 1]))
            else 0
  {
    hide CompletedByte, Value;
  }

  /** Symbol `j` of an accepted text is the encoding of the bytes around it. */
  lemma {:induction false} EncodeDecodedGroup(x: bytes, j: nat)
    requires Decodable(x) && j < |x|
    ensures EncodedAt(DecodedBytes(x), j) == x[j]
  {
    hide DecodedBytes, ByteOrZero, Symbol0, Symbol1, Symbol2, Symbol3, Byte0, Byte1, Byte2, Value, InAlphabet;
    var k := j / 4;
    var at := 4 * k;
    DecodedByte(x, k, 0);
    DecodedByte(x, k, 1);
    DecodedByte(x, k, 2);
    if at + 4 <= |x| {
      SymbolsOfBytes(x[at], x[at + 1], x[at + 2], x[at + 3]);
    } else if at + 3 == |x| {
      SymbolsOfTwoBytes(x[at], x[at + 1], x[at + 2]);
    } else {
      SymbolsOfOneByte(x[at], x[at + 1]);
    }
  }

  /** encode(decode(x)) == x for every accepted x: each value has one accepted spelling. */
  lemma {:induction false} EncodeUndoesDecode(x: bytes)
    requires Decoded(x).Some?
    ensures Encoded(Decoded(x).value) == x
  {
    hide EncodedAt, DecodedAt, InAlphabet, PadBits;
    forall j | 0 <= j < |x| ensures EncodedAt(DecodedBytes(x), j) == x[j] {
      EncodeDecodedGroup(x, j);
    }
    assert EncodedLength(DecodedLength(|x|)) == |x|;
  }
}
