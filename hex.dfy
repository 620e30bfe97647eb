/**
 * Lower-case hexadecimal rendering of a byte string, as `toString('hex')`
 * produces it for the random bytes of a password-reset token, with its
 * decoder.
 */
module Hex {
  import opened Json

  type byte = x: int | 0 <= x < 256

  function HexDigit(v: nat): (c: char)
    requires v < 16
  {
    if v < 10 then (48 + v) as char else (87 + v) as char
  }

  /** The value of a lower-case hexadecimal digit. */
  function HexValue(c: char): (r: Option<nat>)
    ensures r.Some? ==> r.value < 16
  {
    if '0' <= c <= '9' then Some(c as int - 48)
    else if 'a' <= c <= 'f' then Some(c as int - 87)
    else None
  }

  lemma HexDigitValue(v: nat)
    requires v < 16
    ensures HexValue(HexDigit(v)) == Some(v)
  {
  }

  /** Two digits per byte, high nibble first. */
  function HexEncode(bytes: seq<byte>): (s: string)
    ensures |s| == 2 * |bytes|
    ensures forall i :: 0 <= i < |s| ==> HexValue(s[i]).Some?
  {
    if bytes == [] then []
    else
      HexDigitValue(bytes[0] / 16);
      HexDigitValue(bytes[0] % 16);
      [HexDigit(bytes[0] / 16), HexDigit(bytes[0] % 16)] + HexEncode(bytes[1..])
  }

  function HexDecode(s: string): Option<seq<byte>> {
    if |s| == 0 then Some([])
    else if |s| == 1 then None
    else
      match (HexValue(s[0]), HexValue(s[1]), HexDecode(s[2..]))
      case (Some(hi), Some(lo), Some(rest)) => Some([16 * hi + lo] + rest)
      case _ => None
  }

  /** The rendering loses nothing: decoding it gives back the bytes. */
  lemma {:induction false} HexRoundTrip(bytes: seq<byte>)
    ensures HexDecode(HexEncode(bytes)) == Some(bytes)
  {
    if bytes != [] {
      var b := bytes[0];
      HexDigitValue(b / 16);
      HexDigitValue(b % 16);
      HexRoundTrip(bytes[1..]);
      var s := HexEncode(bytes);
      assert s[2..] == HexEncode(bytes[1..]);
      assert [b] + bytes[1..] == bytes;
    }
  }
}
