/** `crypto.randomBytes(24).toString("hex")`: the random part of every temporary file
    name.  The bytes themselves come from the operating system and are a parameter. */
module Hex {
  import opened Js

  newtype uint8 = x: int | 0 <= x < 256

  /** The output of `crypto.randomBytes(24)`. */
  type Random24 = s: seq<uint8> | |s| == 24 witness seq(24, i => 0 as uint8)

  predicate IsHexDigit(c: char) {
    '0' <= c <= '9' || 'a' <= c <= 'f'
  }

  predicate IsLowerHex(s: string) {
    forall i :: 0 <= i < |s| ==> IsHexDigit(s[i])
  }

  /** The lower-case hex digit for a nibble. */
  function HexDigit(v: nat): (c: char)
    requires v < 16
    ensures IsHexDigit(c)
  {
    if v < 10 then ('0' as int + v) as char else ('a' as int + v - 10) as char
  }

  /** `Buffer.toString("hex")`: two lower-case digits per byte, high nibble first. */
  function Encode(b: seq<uint8>): (r: string)
    ensures |r| == 2 * |b|
    ensures IsLowerHex(r)
  {
    if b == [] then ""
    else [HexDigit(b[0] as int / 16), HexDigit(b[0] as int % 16)] + Encode(b[1..])
  }

  function DigitValue(c: char): int {
    if '0' <= c <= '9' then c as int - '0' as int
    else if 'a' <= c <= 'f' then c as int - 'a' as int + 10
    else -1
  }

  /** `Buffer.from(s, "hex")` for a well-formed string; None otherwise. */
  function Decode(s: string): Option<seq<uint8>>
    decreases |s|
  {
    if s == [] then Some([])
    else if |s| == 1 || !IsHexDigit(s[0]) || !IsHexDigit(s[1]) then None
    else
      match Decode(s[2..])
      case None => None
      case Some(rest) => Some([(DigitValue(s[0]) * 16 + DigitValue(s[1])) as uint8] + rest)
  }

  lemma {:induction false} DecodeEncode(b: seq<uint8>)
    ensures Decode(Encode(b)) == Some(b)
  {
    if b != [] {
      var s := Encode(b);
      var hi, lo := b[0] as int / 16, b[0] as int % 16;
      assert s[0] == HexDigit(hi) && s[1] == HexDigit(lo);
      assert DigitValue(HexDigit(hi)) == hi;
      assert DigitValue(HexDigit(lo)) == lo;
      assert s[2..] == Encode(b[1..]);
      DecodeEncode(b[1..]);
      assert [b[0]] + b[1..] == b;
    }
  }

  /** Distinct random draws give distinct hex strings. */
  lemma EncodeInjective(a: seq<uint8>, b: seq<uint8>)
    requires a != b
    ensures Encode(a) != Encode(b)
  {
    DecodeEncode(a);
    DecodeEncode(b);
  }

  /** 24 random bytes give 48 lower-case hex digits. */
  lemma RandomHexShape(b: Random24)
    ensures |Encode(b)| == 48 && IsLowerHex(Encode(b))
  {
  }
}
