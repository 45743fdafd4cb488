/** Go's `encoding/hex`: `EncodeToString` writes each byte as two lower-case hexadecimal
    digits, high nibble first; `DecodeString` is its inverse. */
module Hex {
  import opened Wrappers

  newtype byte = x: int | 0 <= x < 256

  predicate IsHexDigit(c: char) {
    '0' <= c <= '9' || 'a' <= c <= 'f'
  }

  /** The lower-case digit of a nibble. */
  function Digit(n: int): (c: char)
    requires 0 <= n < 16
    ensures IsHexDigit(c)
  {
    if n < 10 then ('0' as int + n) as char else ('a' as int + n - 10) as char
  }

  /** `hex.EncodeToString`. */
  function Encode(bs: seq<byte>): (s: string)
    ensures |s| == 2 * |bs|
    ensures forall i :: 0 <= i < |s| ==> IsHexDigit(s[i])
    decreases |bs|
  {
    if |bs| == 0 then ""
    else
      var b := bs[0] as int;
      var rest := Encode(bs[1..]);
      var s := [Digit(b / 16), Digit(b % 16)] + rest;
      assert forall i :: 2 <= i < |s| ==> s[i] == rest[i - 2];
      s
  }

  /** The value of a lower-case hexadecimal digit, or -1. */
  function DigitValue(c: char): (v: int)
    ensures -1 <= v < 16
    ensures v >= 0 ==> Digit(v) == c
    ensures IsHexDigit(c) <==> v >= 0
  {
    if '0' <= c <= '9' then c as int - '0' as int
    else if 'a' <= c <= 'f' then c as int - 'a' as int + 10
    else -1
  }

  /** `hex.DecodeString` restricted to lower-case digits: odd length and foreign characters are errors. */
  function Decode(s: string): (r: Result<seq<byte>>)
    ensures r.Ok? ==> 2 * |r.value| == |s|
    decreases |s|
  {
    if |s| == 0 then Ok([])
    else if |s| == 1 then Err("encoding/hex: odd length hex string")
    else
      var hi := DigitValue(s[0]);
      var lo := DigitValue(s[1]);
      if hi < 0 || lo < 0 then Err("encoding/hex: invalid byte")
      else
        match Decode(s[2..])
        case Err(e) => Err(e)
        case Ok(rest) => Ok([(hi * 16 + lo) as byte] + rest)
  }

  /** Decoding undoes encoding. */
  lemma {:induction false} DecodeEncode(bs: seq<byte>)
    ensures Decode(Encode(bs)) == Ok(bs)
    decreases |bs|
  {
    if |bs| > 0 {
      var b := bs[0] as int;
      var s := Encode(bs);
      assert s[2..] == Encode(bs[1..]);
      DecodeEncode(bs[1..]);
      assert DigitValue(Digit(b / 16)) == b / 16;
      assert DigitValue(Digit(b % 16)) == b % 16;
      assert [bs[0]] + bs[1..] == bs;
    }
  }

  /** Distinct byte strings have distinct encodings. */
  lemma EncodeInjective(a: seq<byte>, b: seq<byte>)
    requires Encode(a) == Encode(b)
    ensures a == b
  {
    DecodeEncode(a);
    DecodeEncode(b);
  }
}
