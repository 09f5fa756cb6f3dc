/**
 * The "base64" encoding of section 4 of RFC 4648, as used by the browser's
 * `window.btoa`: every 24-bit group of input becomes four characters of the
 * 64-character alphabet of Table 1, and a final group of one or two octets
 * is completed with "=" padding. `Decode` is an independent reference that
 * undoes `Encode`.
 */
module Base64 {
  import opened Common

  type uint8 = x: int | 0 <= x < 0x100
  type sextet = x: int | 0 <= x < 0x40

  const Pad: char := '='

  /** Table 1 of RFC 4648: the character that encodes the 6-bit value `x`. */
  function Digit(x: sextet): (c: char)
    ensures DigitValue(c) == Some(x)
    ensures c != Pad
  {
    if x < 26 then ('A' as int + x) as char
    else if x < 52 then ('a' as int + (x - 26)) as char
    else if x < 62 then ('0' as int + (x - 52)) as char
    else if x == 62 then '+'
    else '/'
  }

  /** The 6-bit value a character of the alphabet stands for; `None` for any other character. */
  function DigitValue(c: char): Option<sextet>
  {
    if 'A' <= c <= 'Z' then Some(c as int - 'A' as int)
    else if 'a' <= c <= 'z' then Some(c as int - 'a' as int + 26)
    else if '0' <= c <= '9' then Some(c as int - '0' as int + 52)
    else if c == '+' then Some(62)
    else if c == '/' then Some(63)
    else None
  }

  /** A character that may appear in encoded output: an alphabet character or the pad. */
  predicate IsEncodedChar(c: char)
  {
    DigitValue(c).Some? || c == Pad
  }

  /** One full 24-bit group: octets a, b, c become four 6-bit digits, most significant first. */
  function EncodeGroup(a: uint8, b: uint8, c: uint8): (r: string)
    ensures |r| == 4 && forall i :: 0 <= i < 4 ==> DigitValue(r[i]).Some?
  {
    [Digit(a / 4), Digit((a % 4) * 16 + b / 16), Digit((b % 16) * 4 + c / 64), Digit(c % 64)]
  }

  /** Base64 encoding of `s`; a final group of 8 or 16 bits is zero-filled and padded with "=". */
  function Encode(s: seq<uint8>): (r: string)
    ensures |r| == 4 * ((|s| + 2) / 3)
    ensures forall i :: 0 <= i < |r| ==> IsEncodedChar(r[i])
    decreases |s|
  {
    if |s| == 0 then []
    else if |s| == 1 then [Digit(s[0] / 4), Digit((s[0] % 4) * 16), Pad, Pad]
    else if |s| == 2 then [Digit(s[0] / 4), Digit((s[0] % 4) * 16 + s[1] / 16), Digit((s[1] % 16) * 4), Pad]
    else EncodeGroup(s[0], s[1], s[2]) + Encode(s[3..])
  }

  /**
   * Decodes one group of four characters into its octets. Padding is accepted
   * only when `last` holds, i.e. in the final group of the input.
   */
  function DecodeGroup(q: string, last: bool): Option<seq<uint8>>
    requires |q| == 4
  {
    var d0, d1, d2, d3 := DigitValue(q[0]), DigitValue(q[1]), DigitValue(q[2]), DigitValue(q[3]);
    if d0.None? || d1.None? then None
    else if d2.Some? && d3.Some? then
      Some([d0.value * 4 + d1.value / 16, (d1.value % 16) * 16 + d2.value / 4, (d2.value % 4) * 64 + d3.value])
    else if !last then None
    else if d2.Some? && q[3] == Pad then
      Some([d0.value * 4 + d1.value / 16, (d1.value % 16) * 16 + d2.value / 4])
    else if q[2] == Pad && q[3] == Pad then
      Some([d0.value * 4 + d1.value / 16])
    else None
  }

  /** Reference decoder: `None` unless `s` is a sequence of four-character groups with padding only at the end. */
  function Decode(s: string): Option<seq<uint8>>
    decreases |s|
  {
    if |s| == 0 then Some([])
    else if |s| < 4 then None
    else if |s| == 4 then DecodeGroup(s, true)
    else match DecodeGroup(s[..4], false)
      case None => None
      case Some(g) =>
        match Decode(s[4..])
        case None => None
        case Some(rest) => Some(g + rest)
  }

  /** Splitting `hi * 16 + lo` back into its parts, for `lo` below 16. */
  lemma Split16(hi: int, lo: int)
    requires 0 <= lo < 16
    ensures (hi * 16 + lo) / 16 == hi && (hi * 16 + lo) % 16 == lo
  {
  }

  /** Splitting `hi * 4 + lo` back into its parts, for `lo` below 4. */
  lemma Split4(hi: int, lo: int)
    requires 0 <= lo < 4
    ensures (hi * 4 + lo) / 4 == hi && (hi * 4 + lo) % 4 == lo
  {
  }

  /** A full group decodes back to its three octets, in the final position or not. */
  lemma DecodeFullGroup(a: uint8, b: uint8, c: uint8, last: bool)
    ensures DecodeGroup(EncodeGroup(a, b, c), last) == Some([a, b, c])
  {
    var q := EncodeGroup(a, b, c);
    var d0, d1, d2, d3 := a / 4, (a % 4) * 16 + b / 16, (b % 16) * 4 + c / 64, c % 64;
    assert DigitValue(q[0]) == Some(d0) && DigitValue(q[1]) == Some(d1);
    assert DigitValue(q[2]) == Some(d2) && DigitValue(q[3]) == Some(d3);
    Split16(a % 4, b / 16);
    Split4(b % 16, c / 64);
    assert d0 * 4 + d1 / 16 == a;
    assert (d1 % 16) * 16 + d2 / 4 == b;
    assert (d2 % 4) * 64 + d3 == c;
  }

  /** A final group of one octet decodes back to it. */
  lemma DecodeOneOctet(a: uint8)
    ensures DecodeGroup(Encode([a]), true) == Some([a])
  {
    var q := Encode([a]);
    assert DigitValue(q[0]) == Some(a / 4);
    assert DigitValue(q[1]) == Some((a % 4) * 16);
    assert DigitValue(q[2]).None?;
    Split16(a % 4, 0);
    assert (a / 4) * 4 + ((a % 4) * 16) / 16 == a;
  }

  /** A final group of two octets decodes back to them. */
  lemma DecodeTwoOctets(a: uint8, b: uint8)
    ensures DecodeGroup(Encode([a, b]), true) == Some([a, b])
  {
    var q := Encode([a, b]);
    var d1, d2 := (a % 4) * 16 + b / 16, (b % 16) * 4;
    assert DigitValue(q[0]) == Some(a / 4);
    assert DigitValue(q[1]) == Some(d1) && DigitValue(q[2]) == Some(d2);
    assert DigitValue(q[3]).None?;
    Split16(a % 4, b / 16);
    Split4(b % 16, 0);
    assert (a / 4) * 4 + d1 / 16 == a;
    assert (d1 % 16) * 16 + d2 / 4 == b;
  }

  /** Decoding undoes encoding, for every octet sequence. */
  lemma {:induction false} DecodeEncode(s: seq<uint8>)
    ensures Decode(Encode(s)) == Some(s)
    decreases |s|
  {
    if |s| > 3 {
      var e := Encode(s);
      assert e[..4] == EncodeGroup(s[0], s[1], s[2]);
      assert e[4..] == Encode(s[3..]);
      DecodeFullGroup(s[0], s[1], s[2], false);
      DecodeEncode(s[3..]);
      assert s == [s[0], s[1], s[2]] + s[3..];
    } else if |s| == 3 {
      assert Encode(s) == EncodeGroup(s[0], s[1], s[2]);
      DecodeFullGroup(s[0], s[1], s[2], true);
      assert s == [s[0], s[1], s[2]];
    } else if |s| == 2 {
      assert s == [s[0], s[1]];
      DecodeTwoOctets(s[0], s[1]);
    } else if |s| == 1 {
      assert s == [s[0]];
      DecodeOneOctet(s[0]);
    }
  }

  /** A string whose every character has a code below 256, which is what `btoa` accepts. */
  predicate IsBinaryString(s: string)
  {
    forall i :: 0 <= i < |s| ==> s[i] as int < 0x100
  }

  /** The character codes of a binary string, as octets. */
  function Codes(s: string): (r: seq<uint8>)
    requires IsBinaryString(s)
    ensures |r| == |s|
  {
    seq(|s|, i requires 0 <= i < |s| => s[i] as int)
  }

  /**
   * `window.btoa`: base64 of the string's character codes, or `None` where the
   * browser throws an InvalidCharacterError (a character above U+00FF).
   */
  function Btoa(s: string): (r: Option<string>)
    ensures r.Some? <==> IsBinaryString(s)
    ensures r.Some? ==> Decode(r.value) == Some(Codes(s))
    ensures r.Some? ==> |r.value| == 4 * ((|s| + 2) / 3)
  {
    if IsBinaryString(s) then
      DecodeEncode(Codes(s));
      Some(Encode(Codes(s)))
    else None
  }
}
