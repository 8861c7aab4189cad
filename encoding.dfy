/**
 * The two renderings of a raw digest: `BitConverter.ToString` with the dashes
 * removed (the Base16 alphabet of section 8 of RFC 4648, upper case) and
 * `Convert.ToBase64String` (the padded base64 of section 4 of RFC 4648), each
 * with a decoder so that the renderings can be shown to lose nothing.
 */
module Encoding {
  import opened Wrappers
  import opened ClrString

  /** An 8-bit unsigned value, as in a .NET `byte[]`. */
  type byte = b: int | 0 <= b < 256

  // ---------------------------------------------------------------- Base16

  /** A character of the upper-case Base16 alphabet "0123456789ABCDEF". */
  predicate IsUpperHexDigit(c: char) {
    '0' <= c <= '9' || 'A' <= c <= 'F'
  }

  /** The upper-case hex digit of a nibble. */
  function HexDigit(n: int): (c: char)
    requires 0 <= n < 16
    ensures IsUpperHexDigit(c)
  {
    if n < 10 then ('0' as int + n) as char else ('A' as int + n - 10) as char
  }

  /** The nibble an upper-case hex digit stands for, or -1 for any other character. */
  function HexValue(c: char): (n: int)
    ensures -1 <= n < 16
    ensures n == -1 <==> !IsUpperHexDigit(c)
  {
    if '0' <= c <= '9' then c as int - '0' as int
    else if 'A' <= c <= 'F' then c as int - 'A' as int + 10
    else -1
  }

  /** `HexValue` undoes `HexDigit`. */
  lemma HexValueOfDigit(n: int)
    requires 0 <= n < 16
    ensures HexValue(HexDigit(n)) == n
  {
  }

  /** One byte as two upper-case hex digits, high nibble first. */
  function ByteHex(b: byte): (r: string)
    ensures |r| == 2 && IsUpperHexDigit(r[0]) && IsUpperHexDigit(r[1])
    ensures HexValue(r[0]) * 16 + HexValue(r[1]) == b
  {
    HexValueOfDigit(b / 16);
    HexValueOfDigit(b % 16);
    [HexDigit(b / 16), HexDigit(b % 16)]
  }

  /**
   * `BitConverter.ToString(bytes)`: the bytes as hex pairs joined by '-'
   * ("" for no bytes).
   */
  function BitConverterString(bytes: seq<byte>): (r: string)
    ensures |r| == if |bytes| == 0 then 0 else 3 * |bytes| - 1
  {
    if |bytes| == 0 then ""
    else if |bytes| == 1 then ByteHex(bytes[0])
    else ByteHex(bytes[0]) + "-" + BitConverterString(bytes[1..])
  }

  /**
   * Where `BitConverter.ToString` puts things: the two digits of byte `i` at
   * positions 3i and 3i+1, and a dash after them unless it is the last byte.
   */
  lemma {:induction false} BitConverterLayout(bytes: seq<byte>, i: nat)
    requires i < |bytes|
    ensures var r := BitConverterString(bytes);
      r[3 * i] == ByteHex(bytes[i])[0] && r[3 * i + 1] == ByteHex(bytes[i])[1] &&
      (i < |bytes| - 1 ==> r[3 * i + 2] == '-')
  {
    if i > 0 {
      BitConverterLayout(bytes[1..], i - 1);
      assert bytes[1..][i - 1] == bytes[i];
    }
  }

  /** The Base16 encoding of RFC 4648 section 8: two digits per byte, no separators. */
  function Base16(bytes: seq<byte>): (r: string)
    ensures |r| == 2 * |bytes|
    ensures forall i :: 0 <= i < |r| ==> IsUpperHexDigit(r[i])
  {
    if bytes == [] then "" else ByteHex(bytes[0]) + Base16(bytes[1..])
  }

  /** `BitConverter.ToString(hash).Replace("-", string.Empty)` is exactly Base16. */
  lemma {:induction false} DashFreeBitConverterIsBase16(bytes: seq<byte>)
    ensures Remove(BitConverterString(bytes), '-') == Base16(bytes)
  {
    if |bytes| == 1 {
      RemoveAbsent(ByteHex(bytes[0]), '-');
      assert Base16(bytes[1..]) == "";
    } else if |bytes| > 1 {
      var h := ByteHex(bytes[0]);
      RemoveConcat(h + "-", BitConverterString(bytes[1..]), '-');
      RemoveConcat(h, "-", '-');
      RemoveAbsent(h, '-');
      DashFreeBitConverterIsBase16(bytes[1..]);
    }
  }

  /** Base16 decoding: `None` for an odd length or a character outside the alphabet. */
  function Base16Decode(s: string): (r: Option<seq<byte>>)
    ensures r.Some? ==> 2 * |r.value| == |s|
    decreases |s|
  {
    if s == [] then Some([])
    else if |s| < 2 then None
    else
      var hi, lo := HexValue(s[0]), HexValue(s[1]);
      if hi < 0 || lo < 0 then None
      else match Base16Decode(s[2..])
        case None => None
        case Some(rest) => Some([hi * 16 + lo] + rest)
  }

  /** Decoding the Base16 text of any bytes gives the bytes back. */
  lemma {:induction false} Base16RoundTrip(bytes: seq<byte>)
    ensures Base16Decode(Base16(bytes)) == Some(bytes)
  {
    if bytes != [] {
      var s := Base16(bytes);
      assert s[2..] == Base16(bytes[1..]);
      Base16RoundTrip(bytes[1..]);
      assert bytes == [bytes[0]] + bytes[1..];
    }
  }

  // ---------------------------------------------------------------- Base64

  /** A character of the base64 alphabet of RFC 4648 section 4 (not the pad '='). */
  predicate IsBase64Digit(c: char) {
    'A' <= c <= 'Z' || 'a' <= c <= 'z' || '0' <= c <= '9' || c == '+' || c == '/'
  }

  /** The base64 digit of a 6-bit value (table 1 of RFC 4648). */
  function Base64Digit(n: int): (c: char)
    requires 0 <= n < 64
    ensures IsBase64Digit(c)
  {
    if n < 26 then ('A' as int + n) as char
    else if n < 52 then ('a' as int + n - 26) as char
    else if n < 62 then ('0' as int + n - 52) as char
    else if n == 62 then '+'
    else '/'
  }

  /** The 6-bit value of a base64 digit, or -1 for any other character ('=' included). */
  function Base64Value(c: char): (n: int)
    ensures -1 <= n < 64
    ensures n == -1 <==> !IsBase64Digit(c)
  {
    if 'A' <= c <= 'Z' then c as int - 'A' as int
    else if 'a' <= c <= 'z' then c as int - 'a' as int + 26
    else if '0' <= c <= '9' then c as int - '0' as int + 52
    else if c == '+' then 62
    else if c == '/' then 63
    else -1
  }

  /** `Base64Value` undoes `Base64Digit`. */
  lemma Base64ValueOfDigit(n: int)
    requires 0 <= n < 64
    ensures Base64Value(Base64Digit(n)) == n
  {
  }

  /** The padding character. */
  const Pad: char := '='

  /** Four digits for three bytes: their 24 bits cut into four 6-bit values, high bits first. */
  function Group(b0: byte, b1: byte, b2: byte): (r: string)
    ensures |r| == 4 && IsBase64Digit(r[0]) && IsBase64Digit(r[1]) && IsBase64Digit(r[2]) && IsBase64Digit(r[3])
  {
    [Base64Digit(b0 / 4), Base64Digit(b0 % 4 * 16 + b1 / 16),
     Base64Digit(b1 % 16 * 4 + b2 / 64), Base64Digit(b2 % 64)]
  }

  /**
   * `Convert.ToBase64String`: every three bytes become four digits; a final
   * single byte becomes two digits and "==", a final pair three digits and "=".
   */
  function Base64(bytes: seq<byte>): (r: string)
    ensures |r| == 4 * ((|bytes| + 2) / 3)
    decreases |bytes|
  {
    if |bytes| == 0 then ""
    else if |bytes| == 1 then Group(bytes[0], 0, 0)[..2] + [Pad, Pad]
    else if |bytes| == 2 then Group(bytes[0], bytes[1], 0)[..3] + [Pad]
    else
      assert (|bytes| + 2) / 3 == (|bytes[3..]| + 2) / 3 + 1;
      Group(bytes[0], bytes[1], bytes[2]) + Base64(bytes[3..])
  }

  /** The first byte a group of 6-bit values carries. */
  function Byte0(v0: int, v1: int): byte
    requires 0 <= v0 < 64 && 0 <= v1 < 64
  {
    v0 * 4 + v1 / 16
  }

  /** The second byte a group of 6-bit values carries. */
  function Byte1(v1: int, v2: int): byte
    requires 0 <= v1 < 64 && 0 <= v2 < 64
  {
    v1 % 16 * 16 + v2 / 4
  }

  /** The third byte a group of 6-bit values carries. */
  function Byte2(v2: int, v3: int): byte
    requires 0 <= v2 < 64 && 0 <= v3 < 64
  {
    v2 % 4 * 64 + v3
  }

  /**
   * Padded base64 decoding, four characters at a time; only the last group
   * may end in "=" or "==". `None` for any other shape or character.
   */
  function Base64Decode(s: string): (r: Option<seq<byte>>)
    decreases |s|
  {
    if s == [] then Some([])
    else if |s| < 4 then None
    else
      var v0, v1, v2, v3 := Base64Value(s[0]), Base64Value(s[1]), Base64Value(s[2]), Base64Value(s[3]);
      if v0 < 0 || v1 < 0 then None
      else if |s| == 4 && s[2] == Pad && s[3] == Pad then Some([Byte0(v0, v1)])
      else if v2 < 0 then None
      else if |s| == 4 && s[3] == Pad then Some([Byte0(v0, v1), Byte1(v1, v2)])
      else if v3 < 0 then None
      else match Base64Decode(s[4..])
        case None => None
        case Some(rest) => Some([Byte0(v0, v1), Byte1(v1, v2), Byte2(v2, v3)] + rest)
  }

  /** The bytes carried by the digits of `Group(b0, b1, b2)` are b0, b1 and b2. */
  lemma GroupRoundTrip(b0: byte, b1: byte, b2: byte)
    ensures var g := Group(b0, b1, b2);
      Byte0(Base64Value(g[0]), Base64Value(g[1])) == b0 &&
      Byte1(Base64Value(g[1]), Base64Value(g[2])) == b1 &&
      Byte2(Base64Value(g[2]), Base64Value(g[3])) == b2
  {
    Base64ValueOfDigit(b0 / 4);
    Base64ValueOfDigit(b0 % 4 * 16 + b1 / 16);
    Base64ValueOfDigit(b1 % 16 * 4 + b2 / 64);
    Base64ValueOfDigit(b2 % 64);
  }

  /** A final single byte: two digits and "==" decode back to it. */
  lemma OneByteRoundTrip(bytes: seq<byte>)
    requires |bytes| == 1
    ensures Base64Decode(Base64(bytes)) == Some(bytes)
  {
    var s := Base64(bytes);
    GroupRoundTrip(bytes[0], 0, 0);
    assert s[2] == Pad && s[3] == Pad;
    assert bytes == [bytes[0]];
  }

  /** A final pair of bytes: three digits and "=" decode back to them. */
  lemma TwoBytesRoundTrip(bytes: seq<byte>)
    requires |bytes| == 2
    ensures Base64Decode(Base64(bytes)) == Some(bytes)
  {
    var s := Base64(bytes);
    GroupRoundTrip(bytes[0], bytes[1], 0);
    assert s[2] != Pad && s[3] == Pad;
    assert bytes == [bytes[0], bytes[1]];
  }

  /** A full group in front of text that decodes to `rest` decodes to its bytes and then `rest`. */
  lemma GroupThenRest(b0: byte, b1: byte, b2: byte, t: string, rest: seq<byte>)
    requires Base64Decode(t) == Some(rest)
    ensures Base64Decode(Group(b0, b1, b2) + t) == Some([b0, b1, b2] + rest)
  {
    var s := Group(b0, b1, b2) + t;
    GroupRoundTrip(b0, b1, b2);
    assert s[3] != Pad;
    assert s[4..] == t;
  }

  /** Three or more bytes encode as a full group followed by the encoding of the rest. */
  lemma Base64Front(bytes: seq<byte>)
    requires |bytes| > 2
    ensures Base64(bytes) == Group(bytes[0], bytes[1], bytes[2]) + Base64(bytes[3..])
  {
  }

  /** A sequence of three or more elements is its first three followed by the rest. */
  lemma SplitThree<T>(s: seq<T>)
    requires |s| > 2
    ensures s == [s[0], s[1], s[2]] + s[3..]
  {
  }

  /** Decoding the base64 text of any bytes gives the bytes back. */
  lemma {:induction false} Base64RoundTrip(bytes: seq<byte>)
    ensures Base64Decode(Base64(bytes)) == Some(bytes)
    decreases |bytes|
  {
    if |bytes| == 1 {
      OneByteRoundTrip(bytes);
    } else if |bytes| == 2 {
      TwoBytesRoundTrip(bytes);
    } else if |bytes| > 2 {
      Base64RoundTrip(bytes[3..]);
      Base64Front(bytes);
      GroupThenRest(bytes[0], bytes[1], bytes[2], Base64(bytes[3..]), bytes[3..]);
      SplitThree(bytes);
    }
  }
}
