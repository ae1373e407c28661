/**
 * Lower-case hexadecimal rendering of byte strings, as the cache key
 * derivation uses it: every byte becomes two characters from the table
 * "0123456789abcdef", high nibble first.
 */
module Hex {

  import opened Wrappers

  /** A byte as Go's `byte`, kept as an integer for nibble arithmetic. */
  type byte = b: int | 0 <= b < 256

  const HexTable: string := "0123456789abcdef"

  predicate IsLowerHexDigit(c: char) {
    '0' <= c <= '9' || 'a' <= c <= 'f'
  }

  predicate IsLowerHex(s: string) {
    forall i :: 0 <= i < |s| ==> IsLowerHexDigit(s[i])
  }

  /** The table character for a nibble: position n of HexTable. */
  function HexDigit(n: int): (c: char)
    requires 0 <= n < 16
    ensures IsLowerHexDigit(c)
  {
    if n < 10 then ('0' as int + n) as char else ('a' as int + n - 10) as char
  }

  /** HexDigit is a lookup in HexTable. */
  lemma HexDigitIsTableEntry(n: int)
    requires 0 <= n < 16
    ensures HexDigit(n) == HexTable[n]
  {
  }

  /** The nibble a lower-case hex character stands for. */
  function DigitValue(c: char): (n: int)
    requires IsLowerHexDigit(c)
    ensures 0 <= n < 16 && HexDigit(n) == c
  {
    if c <= '9' then c as int - '0' as int else c as int - 'a' as int + 10
  }

  /** The encoding of `bs`: two table characters per byte. */
  function EncodeToString(bs: seq<byte>): (s: string)
    ensures |s| == 2 * |bs|
    ensures IsLowerHex(s)
  {
    if bs == [] then []
    else [HexDigit(bs[0] / 16), HexDigit(bs[0] % 16)] + EncodeToString(bs[1..])
  }

  /**
   * The inverse of EncodeToString: reads pairs of lower-case hex
   * characters back into bytes; odd length or a character outside the
   * table gives None.
   */
  function Decode(s: string): (r: Option<seq<byte>>)
    ensures r.Some? ==> 2 * |r.value| == |s|
    decreases |s|
  {
    if s == [] then Some([])
    else if |s| == 1 || !IsLowerHexDigit(s[0]) || !IsLowerHexDigit(s[1]) then None
    else
      match Decode(s[2..])
      case None => None
      case Some(rest) => Some([DigitValue(s[0]) * 16 + DigitValue(s[1])] + rest)
  }

  /** Character 2i and 2i+1 of the encoding are the high and low nibble of byte i. */
  lemma {:induction false} EncodeAt(bs: seq<byte>, i: int)
    requires 0 <= i < |bs|
    ensures EncodeToString(bs)[2 * i] == HexDigit(bs[i] / 16)
    ensures EncodeToString(bs)[2 * i + 1] == HexDigit(bs[i] % 16)
  {
    if i > 0 {
      EncodeAt(bs[1..], i - 1);
    }
  }

  /** Decoding an encoding gives back the bytes. */
  lemma {:induction false} DecodeEncode(bs: seq<byte>)
    ensures Decode(EncodeToString(bs)) == Some(bs)
  {
    if bs != [] {
      var s := EncodeToString(bs);
      assert s[2..] == EncodeToString(bs[1..]);
      DecodeEncode(bs[1..]);
      assert DigitValue(s[0]) == bs[0] / 16;
      assert DigitValue(s[1]) == bs[0] % 16;
      assert [bs[0]] + bs[1..] == bs;
    }
  }

  /** Two byte strings with the same encoding are equal. */
  lemma EncodeInjective(a: seq<byte>, b: seq<byte>)
    requires EncodeToString(a) == EncodeToString(b)
    ensures a == b
  {
    DecodeEncode(a);
    DecodeEncode(b);
  }
}
