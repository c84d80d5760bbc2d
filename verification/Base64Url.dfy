/** Unpadded base64url: section 5 of RFC 4648, with the pad-bit rejection of section 3.5. */
module Base64Url {
  import opened Utf8
  import opened Wrappers

  // ---------------------------------------------------------------------------
  // The alphabet
  // ---------------------------------------------------------------------------

  /** `ABC..Zabc..z012..9-_` */
  function Symbol(v: byte): byte
    requires v < 64
  {
    if v < 26 then 0x41 + v
    else if v < 52 then 0x61 + (v - 26)
    else if v < 62 then 0x30 + (v - 52)
    else if v == 62 then 0x2D else 0x5F
  }

  /** The decoding table: the position of a byte in the alphabet, 0xFF outside it. */
  function Value(b: byte): byte {
    if 0x41 <= b <= 0x5A then b - 0x41
    else if 0x61 <= b <= 0x7A then b - 0x61 + 26
    else if 0x30 <= b <= 0x39 then b - 0x30 + 52
    else if b == 0x2D then 62
    else if b == 0x5F then 63
    else 0xFF
  }

  predicate InAlphabet(b: byte) {
    Value(b) < 64
  }

  lemma TableInvertsAlphabet(b: byte, v: byte)
    requires v < 64
    ensures Value(b) == v <==> Symbol(v) == b
  {
  }

  // ---------------------------------------------------------------------------
  // Encoding
  // ---------------------------------------------------------------------------

  function Symbol0(a: byte): byte { Symbol(a >> 2) }
  function Symbol1(a: byte, b: byte): byte { Symbol(((a & 3) << 4) | (b >> 4)) }
  function Symbol2(b: byte, c: byte): byte { Symbol(((b & 15) << 2) | (c >> 6)) }
  function Symbol3(c: byte): byte { Symbol(c & 63) }

  /** Byte `i`, or the zero bits that fill up a short final group. */
  function ByteOrZero(s: bytes, i: nat): byte {
    if i < |s| then s[i] else 0
  }

  /** Symbol `j` of the text: group `j / 4` covers bytes `3 * (j / 4)` and on. */
  function EncodedAt(s: bytes, j: nat): byte {
    var i := 3 * (j / 4);
    match j % 4
    case 0 => Symbol0(ByteOrZero(s, i))
    case 1 => Symbol1(ByteOrZero(s, i), ByteOrZero(s, i + 1))
    case 2 => Symbol2(ByteOrZero(s, i + 1), ByteOrZero(s, i + 2))
    case _ => Symbol3(ByteOrZero(s, i + 2))
  }

  /** Four symbols for three bytes, two for a single last byte, three for two. */
  function EncodedLength(n: nat): nat {
    4 * (n / 3) + if n % 3 == 0 then 0 else n % 3 + 1
  }

  function Encoded(s: bytes): bytes {
    seq(EncodedLength(|s|), j requires 0 <= j => EncodedAt(s, j))
  }

  /** The bits of a 24-bit block, taken six at a time. */
  lemma BlockSymbols(a: byte, b: byte, c: byte, block: bv32)
    requires block == ((a as bv32) << 16) | ((b as bv32) << 8) | (c as bv32)
    ensures ((block >> 18) & 0x3F) == (a >> 2) as bv32
    ensures ((block >> 12) & 0x3F) == (((a & 3) << 4) | (b >> 4)) as bv32
    ensures ((block >> 6) & 0x3F) == (((b & 15) << 2) | (c >> 6)) as bv32
    ensures (block & 0x3F) == (c & 63) as bv32
  {
  }

  /** `kBase64UrlAlphabet[v]` */
  function Alphabet(v: bv32): byte
    requires v < 64
  {
    Symbol(v as byte)
  }

  lemma BlockAlphabet(a: byte, b: byte, c: byte, block: bv32)
    requires block == ((a as bv32) << 16) | ((b as bv32) << 8) | (c as bv32)
    ensures Alphabet((block >> 18) & 0x3F) == Symbol0(a)
    ensures Alphabet((block >> 12) & 0x3F) == Symbol1(a, b)
    ensures Alphabet((block >> 6) & 0x3F) == Symbol2(b, c)
    ensures Alphabet(block & 0x3F) == Symbol3(c)
  {
    BlockSymbols(a, b, c, block);
  }

  /** `out` holds the first symbols of the encoding of `s`. */
  ghost predicate StartsEncoding(s: bytes, out: bytes) {
    forall j :: 0 <= j < |out| ==> out[j] == EncodedAt(s, j)
  }

  lemma GroupSymbols(s: bytes, n: nat, a: byte, b: byte, c: byte)
    requires a == ByteOrZero(s, 3 * n) && b == ByteOrZero(s, 3 * n + 1) && c == ByteOrZero(s, 3 * n + 2)
    ensures EncodedAt(s, 4 * n) == Symbol0(a) && EncodedAt(s, 4 * n + 1) == Symbol1(a, b)
    ensures EncodedAt(s, 4 * n + 2) == Symbol2(b, c) && EncodedAt(s, 4 * n + 3) == Symbol3(c)
  {
    hide Symbol0, Symbol1, Symbol2, Symbol3;
  }

  method Base64UrlEncode(input: bytes) returns (out: bytes)
    ensures out == Encoded(input)
  {
    hide Symbol0, Symbol1, Symbol2, Symbol3, EncodedAt, Alphabet;
    out := [];
    var index := 0;
    ghost var groups := 0;
    while index + 3 <= |input|
      invariant index == 3 * groups <= |input| && |out| == 4 * groups
      invariant StartsEncoding(input, out)
    {
      var block := ((input[index] as bv32) << 16) | ((input[index + 1] as bv32) << 8) | (input[index + 2] as bv32);
      BlockAlphabet(input[index], input[index + 1], input[index + 2], block);
      GroupSymbols(input, groups, input[index], input[index + 1], input[index + 2]);
      out := out + [Alphabet((block >> 18) & 0x3F), Alphabet((block >> 12) & 0x3F),
                    Alphabet((block >> 6) & 0x3F), Alphabet(block & 0x3F)];
      index, groups := index + 3, groups + 1;
    }
    var remaining := |input| - index;
    if remaining == 1 {
      var block := (input[index] as bv32) << 16;
      BlockAlphabet(input[index], 0, 0, block);
      GroupSymbols(input, groups, input[index], 0, 0);
      out := out + [Alphabet((block >> 18) & 0x3F), Alphabet((block >> 12) & 0x3F)];
    } else if remaining == 2 {
      var block := ((input[index] as bv32) << 16) | ((input[index + 1] as bv32) << 8);
      BlockAlphabet(input[index], input[index + 1], 0, block);
      GroupSymbols(input, groups, input[index], input[index + 1], 0);
      out := out + [Alphabet((block >> 18) & 0x3F), Alphabet((block >> 12) & 0x3F), Alphabet((block >> 6) & 0x3F)];
    }
  }

  // ---------------------------------------------------------------------------
  // Decoding
  // ---------------------------------------------------------------------------

  function Byte0(u: byte, v: byte): byte { (u << 2) | (v >> 4) }
  function Byte1(u: byte, v: byte): byte { (u << 4) | (v >> 2) }
  function Byte2(u: byte, v: byte): byte { (u << 6) | v }

  /** The byte completed by a symbol at `position` of its group of four. */
  function CompletedByte(position: nat, u: byte, v: byte): byte {
    if position == 1 then Byte0(u, v) else if position == 2 then Byte1(u, v) else Byte2(u, v)
  }

  /** Byte `j` comes from two neighbouring symbols of group `j / 3`. */
  function DecodedAt(x: bytes, j: nat): byte
    requires 4 * (j / 3) + j % 3 + 1 < |x|
  {
    var i := 4 * (j / 3) + j % 3;
    CompletedByte(j % 3 + 1, Value(x[i]), Value(x[i + 1]))
  }

  /** Bytes completed by `n` symbols. */
  function DecodedLength(n: nat): nat {
    3 * (n / 4) + if n % 4 == 0 then 0 else n % 4 - 1
  }

  lemma DecodedBytesHaveSymbols(n: nat, j: nat)
    requires j < DecodedLength(n)
    ensures 4 * (j / 3) + j % 3 + 1 < n
  {
  }

  function DecodedBytes(x: bytes): bytes {
    seq(DecodedLength(|x|), j requires 0 <= j < DecodedLength(|x|) =>
      DecodedBytesHaveSymbols(|x|, j);
      DecodedAt(x, j))
  }

  /** Bits of the last symbol that belong to no byte. */
  function PadBits(x: bytes): byte {
    if |x| % 4 == 2 then Value(x[|x| - 1]) & 15
    else if |x| % 4 == 3 then Value(x[|x| - 1]) & 3
    else 0
  }

  predicate AllInAlphabet(x: bytes, n: nat)
    requires n <= |x|
  {
    forall i :: 0 <= i < n ==> InAlphabet(x[i])
  }

  predicate Decodable(x: bytes) {
    AllInAlphabet(x, |x|) && |x| % 4 != 1 && PadBits(x) == 0
  }

  function Decoded(x: bytes): Option<bytes> {
    if Decodable(x) then Some(DecodedBytes(x)) else None
  }

  /** Bits pending after `i` symbols. */
  function PendingBits(i: nat): nat {
    if i % 4 == 0 then 0 else 8 - 2 * (i % 4)
  }

  /** `(buffer >> bits) & 0xFF`, for the only shifts the loop performs. */
  function ByteAbove(buffer: bv32, bits: nat): byte
    requires bits == 0 || bits == 2 || bits == 4
  {
    if bits == 0 then (buffer & 0xFF) as byte
    else if bits == 2 then ((buffer >> 2) & 0xFF) as byte
    else ((buffer >> 4) & 0xFF) as byte
  }

  /** `(1u << bits) - 1u`, for the only widths the final test meets. */
  function Mask(bits: nat): bv32
    requires bits == 2 || bits == 4
  {
    if bits == 2 then 3 else 15
  }

  lemma BufferHoldsByte0(buffer: bv32, u: byte, v: byte, wider: bv32)
    requires v < 64 && u < 64 && buffer & 0x3F == u as bv32 && wider == (buffer << 6) | (v as bv32)
    ensures ByteAbove(wider, 4) == Byte0(u, v)
  {
    assert (wider >> 4) & 0xFF == Byte0(u, v) as bv32;
  }

  lemma BufferHoldsByte1(buffer: bv32, u: byte, v: byte, wider: bv32)
    requires v < 64 && u < 64 && buffer & 0x3F == u as bv32 && wider == (buffer << 6) | (v as bv32)
    ensures ByteAbove(wider, 2) == Byte1(u, v)
  {
    assert (wider >> 2) & 0xFF == Byte1(u, v) as bv32;
  }

  /** The wrapping 32-bit buffer always ends in the last symbol, which is all the
      next byte needs of the past. */
  lemma BufferHoldsNextByte(buffer: bv32, u: byte, v: byte, wider: bv32)
    requires v < 64 && u < 64 && buffer & 0x3F == u as bv32 && wider == (buffer << 6) | (v as bv32)
    ensures ByteAbove(wider, 4) == Byte0(u, v)
    ensures ByteAbove(wider, 2) == Byte1(u, v)
    ensures ByteAbove(wider, 0) == Byte2(u, v)
  {
    BufferHoldsByte0(buffer, u, v, wider);
    BufferHoldsByte1(buffer, u, v, wider);
    assert wider & 0xFF == Byte2(u, v) as bv32;
  }

  lemma BufferEndsInLastSymbol(buffer: bv32, v: byte)
    requires v < 64
    ensures ((buffer << 6) | (v as bv32)) & 0x3F == v as bv32
  {
  }

  lemma LowBitsAreSymbolBits(buffer: bv32, v: byte)
    requires v < 64 && buffer & 0x3F == v as bv32
    ensures buffer & 15 == 0 <==> v & 15 == 0
    ensures buffer & 3 == 0 <==> v & 3 == 0
  {
    assert buffer & 15 == (v & 15) as bv32 && buffer & 3 == (v & 3) as bv32;
  }

  /** `decoded` holds the bytes that the first `i` symbols complete. */
  ghost predicate StartsDecoding(x: bytes, i: nat, decoded: bytes) {
    && |decoded| == DecodedLength(i)
    && forall j :: 0 <= j < |decoded| ==> 4 * (j / 3) + j % 3 + 1 < |x| && decoded[j] == DecodedAt(x, j)
  }

  /** What the decoding loop maintains after `i` symbols. */
  ghost predicate Decoding(x: bytes, i: nat, buffer: bv32, bits: nat, decoded: bytes)
  {
    && i <= |x| && AllInAlphabet(x, i)
    && bits == PendingBits(i) && StartsDecoding(x, i, decoded)
    && (i > 0 ==> buffer & 0x3F == Value(x[i - 1]) as bv32)
  }

  lemma NextByte(x: bytes, i: nat, decoded: bytes, next: byte)
    requires i < |x| && StartsDecoding(x, i, decoded)
    ensures i % 4 == 0 ==> StartsDecoding(x, i + 1, decoded)
    ensures i % 4 != 0 && next == CompletedByte(i % 4, Value(x[i - 1]), Value(x[i])) ==>
              StartsDecoding(x, i + 1, decoded + [next])
  {
    hide CompletedByte, Value;
    if i % 4 != 0 {
      var j := |decoded|;
      assert j / 3 == i / 4 && j % 3 == i % 4 - 1;
    }
  }

  /** One symbol enters the buffer, and completes a byte three times out of four. */
  method TakeSymbol(input: bytes, i: nat, buffer: bv32, bits: nat, decoded: bytes)
    returns (wider: bv32, left: nat, more: bytes)
    requires i < |input| && InAlphabet(input[i]) && Decoding(input, i, buffer, bits, decoded)
    ensures Decoding(input, i + 1, wider, left, more)
  {
    hide DecodedAt, Byte0, Byte1, Byte2, StartsDecoding;
    var value := Value(input[i]);
    BufferEndsInLastSymbol(buffer, value);
    NextByte(input, i, decoded, if i % 4 == 0 then 0 else CompletedByte(i % 4, Value(input[i - 1]), value));
    wider, left, more := (buffer << 6) | (value as bv32), bits + 6, decoded;
    if left >= 8 {
      BufferHoldsNextByte(buffer, Value(input[i - 1]), value, wider);
      left := left - 8;
      more := decoded + [ByteAbove(wider, left)];
    }
  }

  method Base64UrlDecode(input: bytes) returns (out: Option<bytes>)
    ensures out == Decoded(input)
  {
    hide DecodedAt, Value;
    var decoded: bytes := [];
    var buffer: bv32, bits := 0, 0;
    for i := 0 to |input|
      invariant Decoding(input, i, buffer, bits, decoded)
    {
      ValueIsSymbolOrInvalid(input[i]);
      if Value(input[i]) == 0xFF {
        return None;
      }
      buffer, bits, decoded := TakeSymbol(input, i, buffer, bits, decoded);
    }
    if bits >= 6 {
      return None;
    }
    if bits > 0 {
      LowBitsAreSymbolBits(buffer, Value(input[|input| - 1]));
      if buffer & Mask(bits) != 0 {
        return None;
      }
    }
    assert decoded == DecodedBytes(input);
    return Some(decoded);
  }

  lemma ValueIsSymbolOrInvalid(b: byte)
    ensures Value(b) == 0xFF <==> !InAlphabet(b)
  {
  }
}
