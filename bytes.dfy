/**
 * Byte strings and the three encodings the SDK applies to them:
 * `bytes.hex()` / `bytes.fromhex()`, `str.encode()` (UTF-8), and the
 * SHA-256 digest, which is kept uninterpreted.
 */
module Bytes {
  import opened Options

  type byte = bv8

  /**
   * `hashlib.sha256(m).digest()`, left uninterpreted: any total function on
   * byte strings whose digests are 32 bytes long.
   */
  type Sha256 = h: seq<byte> -> seq<byte> | forall m :: |h(m)| == 32
    witness (m: seq<byte>) => seq(32, _ => 0 as byte)

  const LowerHexDigits: string := "0123456789abcdef"

  /** A character `bytes.fromhex` accepts as a digit (either case). */
  predicate IsHexDigit(c: char)
  {
    '0' <= c <= '9' || 'a' <= c <= 'f' || 'A' <= c <= 'F'
  }

  predicate IsLowerHex(s: string)
  {
    forall k :: 0 <= k < |s| ==> s[k] in LowerHexDigits
  }

  /** What `bytes.fromhex` accepts, without its whitespace tolerance: pairs of hex digits. */
  predicate IsHex(s: string)
  {
    |s| % 2 == 0 && forall k :: 0 <= k < |s| ==> IsHexDigit(s[k])
  }

  function DigitValue(c: char): (v: nat)
    requires IsHexDigit(c)
    ensures v < 16
  {
    if '0' <= c <= '9' then c as int - '0' as int
    else if 'a' <= c <= 'f' then c as int - 'a' as int + 10
    else c as int - 'A' as int + 10
  }

  lemma LowerDigitValue(n: nat)
    requires n < 16
    ensures IsHexDigit(LowerHexDigits[n]) && DigitValue(LowerHexDigits[n]) == n
  {
  }

  /** `bytes.hex()`: two lower-case digits per byte, high nibble first. */
  function ToHex(bs: seq<byte>): (s: string)
    ensures |s| == 2 * |bs|
    ensures IsLowerHex(s)
  {
    if bs == [] then ""
    else [LowerHexDigits[bs[0] as int / 16], LowerHexDigits[bs[0] as int % 16]] + ToHex(bs[1..])
  }

  /** `bytes.fromhex(s)`; None where Python raises ValueError. */
  function FromHex(s: string): (r: Option<seq<byte>>)
    ensures r.Some? <==> IsHex(s)
    ensures r.Some? ==> 2 * |r.value| == |s|
    decreases |s|
  {
    if s == [] then Some([])
    else if |s| == 1 || !IsHexDigit(s[0]) || !IsHexDigit(s[1]) then None
    else
      match FromHex(s[2..])
      case None => None
      case Some(rest) => Some([(DigitValue(s[0]) * 16 + DigitValue(s[1])) as byte] + rest)
  }

  /** Every lower-case hex string is accepted by `bytes.fromhex`. */
  lemma LowerHexIsHex(s: string)
    requires IsLowerHex(s) && |s| % 2 == 0
    ensures IsHex(s)
  {
    forall k | 0 <= k < |s| ensures IsHexDigit(s[k]) {
      assert s[k] in LowerHexDigits;
    }
  }

  /** `bytes.fromhex(b.hex()) == b` */
  lemma {:induction false} HexRoundTrip(bs: seq<byte>)
    ensures FromHex(ToHex(bs)) == Some(bs)
  {
    if bs != [] {
      var s := ToHex(bs);
      var hi, lo := bs[0] as int / 16, bs[0] as int % 16;
      LowerDigitValue(hi);
      LowerDigitValue(lo);
      assert s[2..] == ToHex(bs[1..]);
      HexRoundTrip(bs[1..]);
      assert (DigitValue(s[0]) * 16 + DigitValue(s[1])) as byte == bs[0];
      assert bs == [bs[0]] + bs[1..];
    }
  }

  /** The first `2n` hex digits of a byte string are the hex of its first `n` bytes. */
  lemma {:induction false} HexPrefix(bs: seq<byte>, n: nat)
    requires n <= |bs|
    ensures ToHex(bs)[..2 * n] == ToHex(bs[..n])
  {
    if n > 0 {
      HexPrefix(bs[1..], n - 1);
      assert bs[..n][1..] == bs[1..][..n - 1];
    }
  }

  /** A continuation byte `10xxxxxx` carrying the low six bits of `n`. */
  function Continuation(n: nat): (b: byte)
    ensures 0x80 <= b as int < 0xC0
  {
    (0x80 + n % 64) as byte
  }

  /** A lead byte `prefix + n`, for a prefix of 0xC0, 0xE0 or 0xF0. */
  function Lead(prefix: nat, n: nat): (b: byte)
    requires 0xC0 <= prefix && prefix + n < 0xF8
    ensures 0xC0 <= b as int
  {
    (prefix + n) as byte
  }

  /** The UTF-8 encoding of one Unicode scalar value. */
  function EncodeChar(c: char): (bs: seq<byte>)
    ensures 1 <= |bs| <= 4
    ensures (c as int) < 0x80 <==> |bs| == 1
    ensures (c as int) < 0x80 ==> bs == [c as int as byte]
    ensures |bs| > 1 ==> 0xC0 <= bs[0] as int && forall k :: 1 <= k < |bs| ==> 0x80 <= bs[k] as int < 0xC0
  {
    var n := c as int;
    if n < 0x80 then [n as byte]
    else if n < 0x800 then [Lead(0xC0, n / 64), Continuation(n)]
    else if n < 0x10000 then [Lead(0xE0, n / 4096), Continuation(n / 64), Continuation(n)]
    else [Lead(0xF0, n / 262144), Continuation(n / 4096), Continuation(n / 64), Continuation(n)]
  }

  /** `s.encode()`: UTF-8, character by character. */
  function Utf8(s: string): (bs: seq<byte>)
    ensures |bs| >= |s|
    ensures bs == [] <==> s == []
  {
    if s == [] then [] else EncodeChar(s[0]) + Utf8(s[1..])
  }
}
